/** Nothing is ever stuck: from every state a slot can reach, any one proposer, left alone with
    any majority of recorders, can finish. */
module Completion {
  import opened Proposals
  import opened Recorders
  import opened Concrete
  import opened Preservation
  import opened Runs
  import Isr
  import P = Proposer
  import Progress

  /** A smallest majority of the `n` recorders. */
  ghost predicate Majority(n: nat, who: set<nat>) {
    |who| == n / 2 + 1 && forall r | r in who :: r < n
  }

  /** No recorder of `who` is past step `t`. */
  ghost predicate Behind(s: Sys, who: set<nat>, t: nat) {
    forall r | r in who :: r < |s.recorders| && s.recorders[r].step <= t
  }

  /** All recorders of `who` are at step `t`. */
  ghost predicate Together(s: Sys, who: set<nat>, t: nat) {
    forall r | r in who :: r < |s.recorders| && s.recorders[r].step == t
  }

  /** Proposer `a` has just asked everyone for step `t` with `q`, in a state that can be reached. */
  ghost predicate Asked(c: Config, s: Sys, a: nat, t: nat, q: Proposal) {
    Possible(c, s) && StartedOnce(s) && a < |c.proposers| && Began(c, s, a, t, q) && Progress.Plain(t, q)
  }

  /** Decided, in a state that can be reached. */
  ghost predicate Finished(c: Config, s: Sys, a: nat) {
    Possible(c, s) && StartedOnce(s) && a < |s.proposers| && s.proposers[a].decided.Some?
  }

  lemma {:induction false} AskedShape(c: Config, s: Sys, a: nat, t: nat, q: Proposal)
    requires Asked(c, s, a, t, q)
    ensures Possible(c, s) && WellFormed(c) && Shaped(c, s) && !s.panicked && a < |c.proposers|
    ensures StartedOnce(s) && Began(c, s, a, t, q) && Progress.Plain(t, q)
    ensures s.proposers[a].decided.None? && s.proposers[a].responses == map[] && s.proposers[a].step == t
    ensures c.proposers[a].n == c.n && c.proposers[a].Quorum() == c.n / 2 + 1
  {
  }

  // ------------------------------------------------------------------------- one exchange

  lemma {:induction false} NoPanic(c: Config, s: Sys, act: Action)
    requires Possible(c, s) && StartedOnce(Step(c, s, act))
    ensures !Step(c, s, act).panicked
  {
    hide Step, StartedOnce;
    var acts :| s == Exec(c, acts);
    Progress.ExecNext(c, acts, act);
    Reachable(c, acts + [act]);
    InvShape(c, Exec(c, acts + [act]), Invariant.HistoriesOf(c, acts + [act]));
  }

  /** A quorum of replies never makes the proposer fail. */
  lemma {:induction false} QuorumIsDone(c: Config, s: Sys, a: nat, replies: map<nat, Response>)
    requires Possible(c, s) && StartedOnce(s) && a < |c.proposers| && Answers(c, s, a, replies) && c.proposers[a].n == c.n
    requires s.proposers[a].decided.None? && s.proposers[a].responses == map[] && |replies| == c.proposers[a].Quorum()
    ensures P.ProcessQuorum(c.proposers[a], Holds(s.proposers[a], replies), Same(c.n, 1)).Done?
  {
    hide P.ProcessQuorum, Follows;
    PossibleShape(c, s);
    assert replies != map[];
    var x :| x in replies;
    var rest := replies - {x};
    assert |rest| == |replies| - 1;
    var mid := HearSome(c, s, a, rest, 1);
    assert rest[x := replies[x]] == replies;
    var act := Deliver(Resp(x, a, replies[x]), Same(c.n, 1));
    assert P.Admit(mid.proposers[a], x, replies[x]) == Holds(s.proposers[a], replies);
    NoPanic(c, mid, act);
  }

  /** Recorders that were not past `t` are at `t` once they have handled a request for it. */
  lemma {:induction false} HandledTogether(c: Config, s: Sys, s': Sys, t: nat, q: Proposal, who: set<nat>)
    requires HandledBy(c, s, s', t, q, who) && Behind(s, who, t)
    ensures Together(s', who, t)
  {
    forall r | r in who ensures r < |s'.recorders| && s'.recorders[r].step == t {
      assert s.recorders[r].step <= t && r < c.n;
    }
  }

  lemma {:induction false} RepliesSay(c: Config, recorders: seq<Isr.Register>, who: set<nat>, t: nat, q: Proposal, st: P.State)
    requires |recorders| == c.n && forall r | r in who :: r < c.n
    ensures var held := Holds(st, RepliesOf(c, recorders, who, t, q));
            && (forall u | Progress.NonePast(held, u) :: forall r | r in who :: recorders[r].step <= u)
            && ((forall r | r in who :: recorders[r].step == st.step) ==> P.AllAtStep(held))
  {
    var replies := RepliesOf(c, recorders, who, t, q);
    forall r | r in who ensures r in replies && replies[r].step == recorders[r].step {
    }
  }

  /** One exchange with a majority: the proposer decides, or begins a later step that none of
      the majority is past. If none was past this step, it is the next one, and they are all
      at this one. */
  lemma {:induction false} OneExchange(c: Config, s: Sys, a: nat, t: nat, q: Proposal, who: set<nat>)
    returns (s': Sys, t': nat, q': Proposal)
    requires Asked(c, s, a, t, q) && Majority(c.n, who)
    ensures Follows(c, s, s', a, who)
    ensures Finished(c, s', a)
            || (t' > t && Asked(c, s', a, t', q') && Behind(s', who, t')
                && (Behind(s, who, t) ==> t' == t + 1 && Together(s', who, t)))
  {
    AskedShape(c, s, a, t, q);
    var pc := c.proposers[a];
    var mid := AskAll(c, s, a, t, q, who);
    BeganStillThere(c, s, mid, a, t, q);
    PossibleShape(c, mid);
    RepliesKnown(c, mid, a, mid.recorders, who, t, q);
    var replies := RepliesOf(c, mid.recorders, who, t, q);
    var held := Holds(mid.proposers[a], replies);
    hide P.ProcessQuorum, Follows, Possible, Answers, RepliesOf, Began, HandledBy, Behind, Together;
    assert mid.proposers[a].decided.None? && mid.proposers[a].responses == map[] && mid.proposers[a].step == t;
    QuorumIsDone(c, mid, a, replies);
    s' := HearQuorum(c, mid, a, replies, 1);
    FollowsOn(c, s, mid, s', a, who, {}, who);
    RepliesSay(c, mid.recorders, who, t, q, mid.proposers[a]);
    t', q' := Concluded(c, mid, a, t, held, s');
    if s'.proposers[a].decided.None? {
      NoneIsPast(c, mid, s', who, t');
      if Behind(s, who, t) {
        HandledTogether(c, s, mid, t, q, who);
        AllTogether(mid, s', who, t);
      }
    }
  }

  lemma {:induction false} NoneIsPast(c: Config, mid: Sys, s': Sys, who: set<nat>, t: nat)
    requires s'.recorders == mid.recorders && |mid.recorders| == c.n && (forall r | r in who :: r < c.n)
    requires forall r | r in who :: mid.recorders[r].step <= t
    ensures Behind(s', who, t)
  {
  }

  lemma {:induction false} AllTogether(mid: Sys, s': Sys, who: set<nat>, t: nat)
    requires s'.recorders == mid.recorders && Together(mid, who, t)
    ensures Together(s', who, t) && forall r | r in who :: r < |mid.recorders| && mid.recorders[r].step == t
  {
  }

  /** What the quorum `held` has made of the proposer. */
  lemma {:induction false} Concluded(c: Config, mid: Sys, a: nat, t: nat, held: P.State, s': Sys) returns (t': nat, q': Proposal)
    requires WellFormed(c) && Shaped(c, mid) && StartedOnce(mid) && a < |c.proposers| && c.proposers[a].n == c.n
    requires held.decided.None? && held.step == t && Possible(c, s')
    requires var o := P.ProcessQuorum(c.proposers[a], held, Same(c.n, 1)); o.Done? && s' == Settle(mid, a, o, mid.hedge[a])
    ensures StartedOnce(s') && s'.recorders == mid.recorders && a < |s'.proposers|
    ensures s'.proposers[a].decided.None? ==>
              t' > t && Asked(c, s', a, t', q') && Progress.NonePast(held, t') && (P.AllAtStep(held) ==> t' == t + 1)
  {
    var o := P.ProcessQuorum(c.proposers[a], held, Same(c.n, 1));
    Progress.QuorumBegins(c.proposers[a], held, Same(c.n, 1));
    hide P.ProcessQuorum, P.BeginStep, Possible, Began;
    t', q' := 0, held.proposal;
    if o.st.decided.None? {
      var next :| Progress.Begins(c.proposers[a], o, next, Same(c.n, 1)) && next.step > held.step
                  && Progress.NonePast(held, next.step) && (P.AllAtStep(held) ==> next.step == held.step + 1);
      t' := next.step;
      q' := Progress.SettledBegins(c, mid, a, next, mid.hedge[a]);
    }
  }

  // ------------------------------------------------------------------------ the last round

  /** The registers once those of `who` have handled `q` for step `t`. */
  function HandledOf(c: Config, recorders: seq<Isr.Register>, who: set<nat>, t: nat, q: Proposal): (after: seq<Isr.Register>)
    requires |recorders| == c.n
    ensures |after| == c.n
  {
    seq(c.n, r requires 0 <= r < c.n => if r in who then Handled(recorders[r], Asking(c, t, q)) else recorders[r])
  }

  /** Registers of `who` have recorded `q` first and alone at step `t`, and gathered `prior`. */
  ghost predicate Holding(recorders: seq<Isr.Register>, who: set<nat>, t: nat, q: Proposal, prior: Option<Proposal>) {
    forall r | r in who ::
      r < |recorders| && recorders[r].step == t && recorders[r].first == Some(q) && recorders[r].currentAgg == Some(q)
      && (prior.Some? ==> recorders[r].priorAgg == prior)
  }

  lemma {:induction false} HoldingFirst(c: Config, s: Sys, who: set<nat>, t: nat, q: Proposal)
    requires |s.recorders| == c.n && (forall r | r in who :: r < c.n) && t > 0 && Together(s, who, t - 1)
    ensures Holding(HandledOf(c, s.recorders, who, t, q), who, t, q, None)
  {
    forall r | r in who ensures s.recorders[r].step == t - 1 {
    }
  }

  lemma {:induction false} HoldingNext(c: Config, recorders: seq<Isr.Register>, who: set<nat>, t: nat, q: Proposal, prior: Option<Proposal>)
    requires |recorders| == c.n && (forall r | r in who :: r < c.n) && Holding(recorders, who, t, q, prior)
    ensures Holding(HandledOf(c, recorders, who, t + 1, q), who, t + 1, q, Some(q))
  {
  }

  /** What such registers reply leads on: `q` is adopted, and decided in phase 2. */
  lemma {:induction false} HoldingLeads(c: Config, recorders: seq<Isr.Register>, who: set<nat>, t: nat, q: Proposal, prior: Option<Proposal>)
    requires |recorders| == c.n && Majority(c.n, who) && Holding(recorders, who, t, q, prior) && t % 4 != 3
    requires (t % 4 == 0 ==> q.priority < H) && (t % 4 == 2 ==> prior == Some(q))
    ensures Leads(t, q, RepliesOf(c, recorders, who, t, q), if t % 4 == 2 then Decides(q.value) else Adopts(q))
  {
    var replies := RepliesOf(c, recorders, who, t, q);
    assert who != {};
    var x :| x in who;
    assert x in replies;
    forall r | r in replies ensures replies[r].step == t && replies[r].first == Some(q) && (prior == Some(q) ==> replies[r].priorAgg == Some(q)) {
    }
    if t % 4 == 2 {
      assert AllPrior(replies, q);
    }
  }

  /** From a phase 0 past the first round, with a majority one step behind, three exchanges
      decide the proposer's own value. */
  lemma {:induction false} LastRound(c: Config, s: Sys, a: nat, t: nat, q: Proposal, who: set<nat>) returns (s': Sys)
    requires Asked(c, s, a, t, q) && Majority(c.n, who) && t > 4 && t % 4 == 0 && Together(s, who, t - 1)
    ensures Follows(c, s, s', a, who) && Finished(c, s', a) && s'.proposers[a].decided == Some(q.value)
  {
    hide *;
    AskedShape(c, s, a, t, q);
    MajorityShape(c.n, who);
    PlainShape(t, q);
    assert |s.recorders| == c.n by { ShapeOf(c, s); }
    var r0 := HandledOf(c, s.recorders, who, t, q);
    var r1 := HandledOf(c, r0, who, t + 1, q);
    var r2 := HandledOf(c, r1, who, t + 2, q);
    HoldingFirst(c, s, who, t, q);
    HoldingNext(c, r0, who, t, q, None);
    HoldingNext(c, r1, who, t + 1, q, Some(q));
    var s1 := Exchanged(c, s, a, t, q, who, None);
    var s2 := Exchanged(c, s1, a, t + 1, q, who, Some(q));
    FollowsOn(c, s, s1, s2, a, who, who, who);
    s' := Exchanged(c, s2, a, t + 2, q, who, Some(q));
    FollowsOn(c, s, s2, s', a, who, who, who);
    IsFinished(c, s', a);
  }

  lemma {:induction false} PlainShape(t: nat, q: Proposal)
    requires Progress.Plain(t, q) && t > 4 && t % 4 == 0
    ensures q.priority < H
  {
  }

  lemma {:induction false} ShapeOf(c: Config, s: Sys)
    requires Shaped(c, s)
    ensures |s.recorders| == c.n
  {
  }

  lemma {:induction false} IsFinished(c: Config, s: Sys, a: nat)
    requires Possible(c, s) && StartedOnce(s) && a < |s.proposers| && s.proposers[a].decided.Some?
    ensures Finished(c, s, a)
  {
  }

  /** One exchange of the last round. */
  lemma {:induction false} Exchanged(c: Config, s: Sys, a: nat, t: nat, q: Proposal, who: set<nat>, prior: Option<Proposal>) returns (s': Sys)
    requires Possible(c, s) && StartedOnce(s) && a < |c.proposers| && Began(c, s, a, t, q) && |s.recorders| == c.n
    requires Majority(c.n, who) && t % 4 != 3 && (t % 4 == 0 ==> q.priority < H) && (t % 4 == 2 ==> prior == Some(q))
    requires Holding(HandledOf(c, s.recorders, who, t, q), who, t, q, prior)
    ensures Follows(c, s, s', a, who) && Possible(c, s') && StartedOnce(s') && a < |s'.proposers|
    ensures s'.recorders == HandledOf(c, s.recorders, who, t, q)
    ensures if t % 4 == 2 then s'.proposers[a].decided == Some(q.value) else Began(c, s', a, t + 1, q)
  {
    assert 1 < H;
    hide *;
    var after := HandledOf(c, s.recorders, who, t, q);
    HandledOfAt(c, s.recorders, who, t, q);
    HoldingLeads(c, after, who, t, q, prior);
    MajorityShape(c.n, who);
    if t % 4 < 2 {
      NextIsSame(c, a, t, q);
    }
    s' := Exchange(c, s, a, t, q, who, after, if t % 4 == 2 then Decides(q.value) else Adopts(q), 1, q);
    SameKicks(s, s');
  }

  lemma {:induction false} HandledOfAt(c: Config, recorders: seq<Isr.Register>, who: set<nat>, t: nat, q: Proposal)
    requires |recorders| == c.n
    ensures forall r: nat | r < c.n ::
              HandledOf(c, recorders, who, t, q)[r] == if r in who then Handled(recorders[r], Asking(c, t, q)) else recorders[r]
  {
    hide Handled;
  }

  lemma {:induction false} MajorityShape(n: nat, who: set<nat>)
    requires Majority(n, who)
    ensures |who| == n / 2 + 1 && forall r | r in who :: r < n
  {
  }

  lemma {:induction false} NextIsSame(c: Config, a: nat, t: nat, q: Proposal)
    requires a < |c.proposers| && t % 4 < 2
    ensures Begins(c.proposers[a], q, t + 1, 1, q)
  {
  }

  lemma {:induction false} SameKicks(s: Sys, s': Sys)
    requires StartedOnce(s) && s'.kicks == s.kicks
    ensures StartedOnce(s')
  {
  }

  // ---------------------------------------------------------------------- from any request

  /** On to the next phase 0, one exchange a step. */
  lemma {:induction false} ToPhaseZero(c: Config, s: Sys, a: nat, t: nat, q: Proposal, who: set<nat>)
    returns (s': Sys, t': nat, q': Proposal)
    requires Asked(c, s, a, t, q) && Majority(c.n, who) && t > 4 && Together(s, who, t - 1)
    ensures Follows(c, s, s', a, who)
    ensures Finished(c, s', a)
            || (t' > 4 && t' % 4 == 0 && Asked(c, s', a, t', q') && Together(s', who, t' - 1))
    decreases (4 - t % 4) % 4
  {
    AskedShape(c, s, a, t, q);
    hide Asked, Finished, Follows, Majority;
    if t % 4 == 0 {
      s', t', q' := s, t, q;
      FollowsSelf(c, s, a, who);
    } else {
      assert Behind(s, who, t);
      hide Behind, Together;
      var mid, u, p := OneExchange(c, s, a, t, q, who);
      if Finished(c, mid, a) {
        s', t', q' := mid, u, p;
      } else {
        s', t', q' := ToPhaseZero(c, mid, a, u, p, who);
        FollowsOn(c, s, mid, s', a, who, who, who);
      }
    }
  }

  /** From whatever a proposer has just asked, a majority brings it to a decision in at most
      eight exchanges. */
  lemma {:induction false} FromAsked(c: Config, s: Sys, a: nat, t: nat, q: Proposal, who: set<nat>) returns (s': Sys)
    requires Asked(c, s, a, t, q) && Majority(c.n, who) && t >= 4
    ensures Follows(c, s, s', a, who) && Finished(c, s', a)
  {
    hide Asked, Finished, Follows, Majority, Behind, Together;
    var s1, t1, q1 := OneExchange(c, s, a, t, q, who);
    if Finished(c, s1, a) {
      s' := s1;
    } else {
      var s2, t2, q2 := OneExchange(c, s1, a, t1, q1, who);
      FollowsOn(c, s, s1, s2, a, who, who, who);
      if Finished(c, s2, a) {
        s' := s2;
      } else {
        var s3, t3, q3 := ToPhaseZero(c, s2, a, t2, q2, who);
        FollowsOn(c, s, s2, s3, a, who, who, who);
        if Finished(c, s3, a) {
          s' := s3;
        } else {
          s' := LastRound(c, s3, a, t3, q3, who);
          FollowsOn(c, s, s3, s', a, who, who, who);
        }
      }
    }
  }

  // ------------------------------------------------------------------- from anywhere at all

  ghost predicate ArmedIfWaiting(s: Sys, a: nat) {
    && a < |s.proposers| == |s.hedge| == |s.kicks|
    && (s.kicks[a] > 0 && !s.proposers[a].activated && s.proposers[a].decided.None? ==> s.hedge[a])
  }

  /** A callback leaves its proposer active, or decided, or waiting as it was, or waiting with its
      hedge timer armed. */
  ghost predicate StillWaits(st: P.State, o: P.Outcome) {
    o.Done? ==>
      || o.st.activated || o.st.decided.Some? || ArmsHedge(o.timers)
      || (o.st.activated == st.activated && o.st.decided == st.decided)
  }

  lemma {:induction false} ReplyStillWaits(pc: P.Config, st: P.State, from: nat, resp: Response, draws: seq<nat>)
    requires |draws| == pc.n
    ensures StillWaits(st, P.OnResponse(pc, st, from, resp, draws))
  {
    if st.decided.None? {
      Progress.QuorumBegins(pc, P.Admit(st, from, resp), draws);
    }
    hide P.ProcessQuorum;
  }

  lemma {:induction false} TimerStillWaits(pc: P.Config, st: P.State, id: P.TimerId, local: Option<nat>, draws: seq<nat>)
    requires |draws| == pc.n
    ensures id.Retry? ==> StillWaits(st, P.OnTimer(pc, st, id, local, draws))
    ensures !id.Retry? ==> var o := P.OnTimer(pc, st, id, local, draws);
                           o.Done? && (o.st.activated || o.st.decided.Some? || ArmsHedge(o.timers))
  {
    hide P.Resends, P.PreparedMap, P.PreparedSends;
    var o := P.OnTimer(pc, st, id, local, draws);
    if o.Done? && |o.timers| == 1 && o.timers[0].1 == P.Hedge {
      assert ArmsHedge(o.timers);
    }
  }

  lemma {:induction false} StepKeepsArmed(c: Config, s: Sys, act: Action, a: nat)
    requires WellFormed(c) && Shaped(c, s) && ArmedIfWaiting(s, a)
    ensures ArmedIfWaiting(Step(c, s, act), a)
  {
    if !s.panicked && Enabled(c, s, act) {
      hide P.OnResponse, P.OnTimer, P.OnRetry, ArmsHedge;
      match act
      case Handle(_) =>
      case Deliver(m, draws) => ReplyStillWaits(c.proposers[m.dst], s.proposers[m.dst], m.src, m.resp, draws);
      case Kick(b, draws) => TimerStillWaits(c.proposers[b], s.proposers[b], P.Kickoff, None, draws);
      case HedgeFires(b, local, draws) => TimerStillWaits(c.proposers[b], s.proposers[b], P.Hedge, local, draws);
      case RetryFires(b, t) => RetryStillWaits(c.proposers[b], s.proposers[b], t);
    }
  }

  lemma {:induction false} RetryStillWaits(pc: P.Config, st: P.State, t: nat)
    ensures StillWaits(st, P.OnRetry(pc, st, t))
  {
    hide P.Resends;
  }

  /** On every run, a proposer that was kicked off, has not decided and is not active has its
      hedge timer armed. */
  lemma {:induction false} WaitingIsArmed(c: Config, acts: seq<Action>, a: nat)
    requires WellFormed(c) && a < |c.proposers|
    ensures ArmedIfWaiting(Exec(c, acts), a)
  {
    if acts == [] {
    } else {
      hide Step, ArmedIfWaiting;
      WaitingIsArmed(c, acts[..|acts| - 1], a);
      StepKeepsArmed(c, Exec(c, acts[..|acts| - 1]), acts[|acts| - 1], a);
    }
  }

  lemma {:induction false} NotYetActive(c: Config, acts: seq<Action>, a: nat)
    requires WellFormed(c) && StartedOnce(Exec(c, acts)) && a < |c.proposers| && !Exec(c, acts).proposers[a].activated
    ensures var s := Exec(c, acts);
            && a < |s.kicks| && (s.kicks[a] == 0 ==> s.proposers[a] == P.Fresh(c.proposers[a]))
            && (s.kicks[a] > 0 ==> s.kicks[a] == 1 && s.proposers[a].step == 4)
    ensures Possible(c, Exec(c, acts))
  {
    hide Exec;
    Reachable(c, acts);
    var s, h := Exec(c, acts), Invariant.HistoriesOf(c, acts);
    InvShape(c, s, h);
    assert Invariant.ProposerOk(c, h, s.net, a, s.proposers[a], s.hedge[a], s.kicks[a]);
  }

  lemma {:induction false} FirstAsked(pc: P.Config, p: Proposal) returns (q: Proposal)
    ensures Begins(pc, p, 4, 1, q) && Progress.Plain(4, q)
  {
    q := if pc.IsLeader() then Proposal(p.value, H, pc.selfId) else Proposal(p.value, 1, pc.selfId);
  }

  /** A proposer that is not active yet becomes so: kicked off if it was not, or by its hedge
      timer, which finds no local progress to wait for. */
  lemma {:induction false} Wake(c: Config, acts: seq<Action>, a: nat, who: set<nat>) returns (s': Sys, q: Proposal)
    requires WellFormed(c) && StartedOnce(Exec(c, acts)) && a < |c.proposers|
    requires !Exec(c, acts).proposers[a].activated && Exec(c, acts).proposers[a].decided.None?
    ensures Follows(c, Exec(c, acts), s', a, who) && Asked(c, s', a, 4, q)
  {
    NotYetActive(c, acts, a);
    WaitingIsArmed(c, acts, a);
    var s := Exec(c, acts);
    var st := s.proposers[a];
    PossibleShape(c, s);
    q := FirstAsked(c.proposers[a], st.proposal);
    hide Exec, Follows, Possible, Began, P.BeginStep, Begins;
    FollowsSelf(c, s, a, who);
    if s.kicks[a] == 0 {
      s' := Kicking(c, s, a, 1, q);
      FollowsOn(c, s, s, s', a, who, {}, who);
    } else {
      var act := HedgeFires(a, Option<nat>.None, Same(c.n, 1));
      HedgeBegins(c, s, a, q);
      s' := Step(c, s, act);
      PossibleStep(c, s, act);
      FollowsStep(c, s, s, act, a, who);
    }
  }

  lemma {:induction false} HedgeBegins(c: Config, s: Sys, a: nat, q: Proposal)
    requires WellFormed(c) && Shaped(c, s) && !s.panicked && a < |c.proposers| && s.hedge[a]
    requires s.proposers[a].decided.None? && s.proposers[a].step == 4 && Begins(c.proposers[a], s.proposers[a].proposal, 4, 1, q)
    ensures var s' := Step(c, s, HedgeFires(a, None, Same(c.n, 1)));
            !s'.panicked && s'.kicks == s.kicks && Began(c, s', a, 4, q)
  {
    hide P.BeginStep, Begins;
    SettleBegins(c, s, a, s.proposers[a], 1, q, false);
  }

  /** An active proposer, whatever replies it holds and whatever it sent, decides or begins a
      new step once a retry is answered by a majority. */
  lemma {:induction false} Retried(c: Config, acts: seq<Action>, a: nat, who: set<nat>) returns (s': Sys, t: nat, q: Proposal)
    requires WellFormed(c) && StartedOnce(Exec(c, acts)) && a < |c.proposers| && Majority(c.n, who)
    requires Exec(c, acts).proposers[a].activated && Exec(c, acts).proposers[a].decided.None?
    ensures Follows(c, Exec(c, acts), s', a, who)
    ensures Finished(c, s', a) || (t > 4 && Asked(c, s', a, t, q))
  {
    var s := Exec(c, acts);
    var u := s.proposers[a].step;
    ActiveStep(c, acts, a);
    MajorityShape(c.n, who);
    hide Exec, Majority, Progress.WentOn, Follows, AllForOne, Possible, Began;
    var replies := Progress.AnsweredRetryCompletes(c, acts, a, u, who);
    var sends := Progress.Again(c, s, a, u);
    var more := [RetryFires(a, u)] + Progress.Handlings(a, sends, who, |sends|) + replies;
    var all := acts + [RetryFires(a, u)] + Progress.Handlings(a, sends, who, |sends|) + replies;
    assert all == acts + more;
    s' := Exec(c, all);
    RetriedForOne(a, u, sends, who, replies);
    ExecIsFrom(c, acts, more);
    FollowsBy(c, s, s', a, who, more);
    IsPossible(c, all);
    t, q := WentSomewhere(c, s', a, u);
  }

  lemma {:induction false} WentSomewhere(c: Config, s: Sys, a: nat, u: nat) returns (t: nat, q: Proposal)
    requires Possible(c, s) && StartedOnce(s) && a < |c.proposers| && Progress.WentOn(c, s, a, u) && u >= 4
    ensures Finished(c, s, a) || (t > 4 && Asked(c, s, a, t, q))
  {
    hide Possible, Began;
    t, q := 0, Proposal(0, 0, 0);
    if s.proposers[a].decided.None? {
      var t', q' :| Progress.BegunPast(c, s, a, u, t', q');
      t, q := t', q';
    }
  }

  lemma {:induction false} FollowsBy(c: Config, s: Sys, s': Sys, a: nat, who: set<nat>, more: seq<Action>)
    requires Shaped(c, s) && AllForOne(more, a, who) && s' == ExecFrom(c, s, more)
    ensures Follows(c, s, s', a, who)
  {
    hide ExecFrom;
  }

  lemma {:induction false} IsPossible(c: Config, acts: seq<Action>)
    requires WellFormed(c) && StartedOnce(Exec(c, acts))
    ensures Possible(c, Exec(c, acts))
  {
    hide Exec;
    Reachable(c, acts);
    InvShape(c, Exec(c, acts), Invariant.HistoriesOf(c, acts));
  }

  lemma {:induction false} ActiveStep(c: Config, acts: seq<Action>, a: nat)
    requires WellFormed(c) && StartedOnce(Exec(c, acts)) && a < |c.proposers| && Exec(c, acts).proposers[a].activated
    ensures Exec(c, acts).proposers[a].step >= 4 && !Exec(c, acts).panicked
  {
    hide Exec;
    Reachable(c, acts);
    var s, h := Exec(c, acts), Invariant.HistoriesOf(c, acts);
    InvShape(c, s, h);
    assert Invariant.ProposerOk(c, h, s.net, a, s.proposers[a], s.hedge[a], s.kicks[a]);
  }

  lemma {:induction false} RetriedForOne(a: nat, u: nat, sends: P.Sends, who: set<nat>, replies: seq<Action>)
    requires Progress.OnlyReplies(replies, a, who)
    ensures AllForOne([RetryFires(a, u)] + Progress.Handlings(a, sends, who, |sends|) + replies, a, who)
  {
    HandlingsForOne(a, sends, who, |sends|);
  }

  lemma {:induction false} HandlingsForOne(a: nat, sends: P.Sends, who: set<nat>, k: nat)
    requires k <= |sends|
    ensures AllForOne(Progress.Handlings(a, sends, who, k), a, who)
  {
    if k == 0 {
    } else {
      HandlingsForOne(a, sends, who, k - 1);
    }
  }

  /** Obstruction freedom. From every state that any schedule leads to, with any loss, delay and
      reordering so far, any proposers at work and any step reached, each proposer has a way to
      a decision in which nobody else acts and only the recorders of a majority of its choice
      answer it. */
  lemma {:induction false} AnyoneCanFinish(c: Config, acts: seq<Action>, a: nat, who: set<nat>) returns (more: seq<Action>)
    requires WellFormed(c) && StartedOnce(Exec(c, acts)) && a < |c.proposers| && Majority(c.n, who)
    ensures AllForOne(more, a, who)
    ensures StartedOnce(Exec(c, acts + more)) && !Exec(c, acts + more).panicked
    ensures Exec(c, acts + more).proposers[a].decided.Some?
  {
    hide Exec, Majority, Asked, Finished, Follows, ExecFrom;
    var s := Exec(c, acts);
    IsPossible(c, acts);
    PossibleShape(c, s);
    var s': Sys;
    if s.proposers[a].decided.Some? {
      s' := s;
      FollowsSelf(c, s, a, who);
      IsFinished(c, s, a);
    } else if s.proposers[a].activated {
      var mid, t, q := Retried(c, acts, a, who);
      if Finished(c, mid, a) {
        s' := mid;
      } else {
        s' := FromAsked(c, mid, a, t, q, who);
        FollowsOn(c, s, mid, s', a, who, who, who);
      }
    } else {
      var mid, q := Wake(c, acts, a, who);
      s' := FromAsked(c, mid, a, 4, q, who);
      FollowsOn(c, s, mid, s', a, who, who, who);
    }
    more := Continuation(c, acts, s', a, who);
  }

  lemma {:induction false} Continuation(c: Config, acts: seq<Action>, s': Sys, a: nat, who: set<nat>) returns (more: seq<Action>)
    requires Follows(c, Exec(c, acts), s', a, who) && Finished(c, s', a)
    ensures AllForOne(more, a, who) && Exec(c, acts + more) == s'
    ensures StartedOnce(s') && !s'.panicked && a < |s'.proposers| && s'.proposers[a].decided.Some?
  {
    hide Exec, ExecFrom;
    more :| AllForOne(more, a, who) && s' == ExecFrom(c, Exec(c, acts), more);
    ExecIsFrom(c, acts, more);
  }
}
