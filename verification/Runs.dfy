/** Building concrete schedules: what one kickoff, one set of requests handled and one quorum
    of replies delivered make of a slot. */
module Runs {
  import opened Proposals
  import opened Recorders
  import opened Concrete
  import Isr
  import P = Proposer

  ghost predicate Possible(c: Config, s: Sys) {
    WellFormed(c) && Shaped(c, s) && !s.panicked && exists acts :: s == Exec(c, acts)
  }

  lemma {:induction false} StartIsPossible(c: Config)
    requires WellFormed(c)
    ensures Possible(c, Init(c))
  {
    assert Init(c) == Exec(c, []);
  }

  lemma {:induction false} PossibleStep(c: Config, s: Sys, act: Action)
    requires Possible(c, s) && !Step(c, s, act).panicked
    ensures Possible(c, Step(c, s, act))
  {
    hide Step, WellFormed;
    var acts :| s == Exec(c, acts);
    assert (acts + [act])[..|acts|] == acts;
    assert Step(c, s, act) == Exec(c, acts + [act]);
  }

  // ----------------------------------------------------------------------- continuations

  /** The action is one of proposer `a`, or an answer to it by a recorder of `who`. */
  predicate ForOne(act: Action, a: nat, who: set<nat>) {
    match act
    case Handle(m) => m.src == a && m.dst in who
    case Deliver(m, _) => m.dst == a
    case Kick(b, _) => b == a
    case HedgeFires(b, _, _) => b == a
    case RetryFires(b, _) => b == a
  }

  ghost predicate AllForOne(acts: seq<Action>, a: nat, who: set<nat>) {
    forall k | 0 <= k < |acts| :: ForOne(acts[k], a, who)
  }

  /** Where a continuation leads from `s`. */
  function ExecFrom(c: Config, s: Sys, more: seq<Action>): (s': Sys)
    requires Shaped(c, s)
    ensures Shaped(c, s')
  {
    if more == [] then s else Step(c, ExecFrom(c, s, more[..|more| - 1]), more[|more| - 1])
  }

  /** Proposer `a` alone, with recorders of `who` answering it, can take `s` to `s'`. */
  ghost predicate Follows(c: Config, s: Sys, s': Sys, a: nat, who: set<nat>) {
    Shaped(c, s) && Shaped(c, s') && exists more :: AllForOne(more, a, who) && s' == ExecFrom(c, s, more)
  }

  lemma {:induction false} FollowsSelf(c: Config, s: Sys, a: nat, who: set<nat>)
    requires Shaped(c, s)
    ensures Follows(c, s, s, a, who)
  {
    assert AllForOne([], a, who) && ExecFrom(c, s, []) == s;
  }

  lemma {:induction false} FollowsStep(c: Config, s: Sys, mid: Sys, act: Action, a: nat, who: set<nat>)
    requires Follows(c, s, mid, a, who) && ForOne(act, a, who)
    ensures Follows(c, s, Step(c, mid, act), a, who)
  {
    hide Step;
    var more :| AllForOne(more, a, who) && mid == ExecFrom(c, s, more);
    assert (more + [act])[..|more|] == more;
    assert AllForOne(more + [act], a, who);
    assert Step(c, mid, act) == ExecFrom(c, s, more + [act]);
  }

  lemma {:induction false} ExecFromOn(c: Config, s: Sys, first: seq<Action>, second: seq<Action>)
    requires Shaped(c, s)
    ensures ExecFrom(c, s, first + second) == ExecFrom(c, ExecFrom(c, s, first), second)
    decreases |second|
  {
    hide Step;
    if second == [] {
      assert first + second == first;
    } else {
      ExecFromOn(c, s, first, second[..|second| - 1]);
      assert (first + second)[..|first + second| - 1] == first + second[..|second| - 1];
    }
  }

  lemma {:induction false} FollowsOn(c: Config, s: Sys, mid: Sys, s': Sys, a: nat, some: set<nat>, others: set<nat>, who: set<nat>)
    requires Follows(c, s, mid, a, some) && Follows(c, mid, s', a, others) && some <= who && others <= who
    ensures Follows(c, s, s', a, who)
  {
    hide Step, ExecFrom;
    var first :| AllForOne(first, a, some) && mid == ExecFrom(c, s, first);
    var second :| AllForOne(second, a, others) && s' == ExecFrom(c, mid, second);
    ExecFromOn(c, s, first, second);
    var all := first + second;
    forall k | 0 <= k < |all| ensures ForOne(all[k], a, who) {
      assert if k < |first| then ForOne(first[k], a, some) else ForOne(second[k - |first|], a, others);
    }
  }

  lemma {:induction false} ExecIsFrom(c: Config, acts: seq<Action>, more: seq<Action>)
    ensures Exec(c, acts + more) == ExecFrom(c, Exec(c, acts), more)
    decreases |more|
  {
    hide Step;
    if more == [] {
      assert acts + more == acts;
    } else {
      ExecIsFrom(c, acts, more[..|more| - 1]);
      assert (acts + more)[..|acts + more| - 1] == acts + more[..|more| - 1];
    }
  }

  function Asking(c: Config, t: nat, q: Proposal): Request {
    Request(c.slot, t, q)
  }

  /** Proposer `a` has sent `q` to every recorder for step `t` and awaits replies. */
  ghost predicate Began(c: Config, s: Sys, a: nat, t: nat, q: Proposal) {
    && a < |s.proposers|
    && var st := s.proposers[a];
    && st.activated && st.decided.None? && st.responses == map[] && st.step == t
    && st.proposal.value == q.value && (t % 4 != 0 ==> st.proposal == q)
    && forall r: nat | r < c.n :: Req(a, r, Asking(c, t, q)) in s.net
  }

  /** A move of some other proposer, or of recorders, leaves `a` where it was. */
  ghost predicate Elsewhere(s: Sys, s': Sys, a: nat) {
    |s'.proposers| == |s.proposers| && a < |s.proposers| && s'.proposers[a] == s.proposers[a] && s.net <= s'.net
  }

  ghost predicate OthersElsewhere(s: Sys, s': Sys, a: nat) {
    forall b | 0 <= b < |s.proposers| && b != a :: Elsewhere(s, s', b)
  }

  lemma {:induction false} BeganStays(c: Config, s: Sys, s': Sys, a: nat, t: nat, q: Proposal)
    requires Began(c, s, a, t, q) && Elsewhere(s, s', a)
    ensures Began(c, s', a, t, q)
  {
  }

  // ------------------------------------------------------------------------------ requests

  /** Recorder `r` handles what `a` asked. */
  lemma {:induction false} Handling(c: Config, s: Sys, a: nat, r: nat, t: nat, q: Proposal) returns (s': Sys)
    requires Possible(c, s) && r < c.n && Req(a, r, Asking(c, t, q)) in s.net
    ensures Possible(c, s') && Follows(c, s, s', a, {r})
    ensures var i := Handled(s.recorders[r], Asking(c, t, q));
            s' == s.(recorders := s.recorders[r := i], net := s.net + {Resp(r, a, Reply(i, Asking(c, t, q)))})
  {
    hide Handled, Follows;
    var act := Handle(Req(a, r, Asking(c, t, q)));
    s' := Step(c, s, act);
    PossibleStep(c, s, act);
    FollowsSelf(c, s, a, {r});
    FollowsStep(c, s, s, act, a, {r});
  }

  /** The recorders of `who` have handled `q` for step `t`, the others nothing. */
  ghost predicate HandledBy(c: Config, s: Sys, s': Sys, t: nat, q: Proposal, who: set<nat>) {
    && |s.recorders| == |s'.recorders| == c.n
    && forall r: nat | r < c.n ::
         s'.recorders[r] == if r in who then Handled(s.recorders[r], Asking(c, t, q)) else s.recorders[r]
  }

  /** What the recorders of `who` say to `q` once they have handled it. */
  function RepliesOf(c: Config, recorders: seq<Isr.Register>, who: set<nat>, t: nat, q: Proposal): map<nat, Response>
    requires |recorders| == c.n
  {
    map r | r in who && r < c.n :: Reply(recorders[r], Asking(c, t, q))
  }

  /** Replies to `a` that are on the network and answer its current step. */
  ghost predicate Answers(c: Config, s: Sys, a: nat, replies: map<nat, Response>) {
    && a < |s.proposers|
    && forall r | r in replies ::
         Resp(r, a, replies[r]) in s.net && replies[r].slot == c.slot && replies[r].reqStep == s.proposers[a].step
  }

  /** Some recorders handle what `a` last sent; their replies are on the network. */
  lemma {:induction false} AskAll(c: Config, s: Sys, a: nat, t: nat, q: Proposal, who: set<nat>) returns (s': Sys)
    requires Possible(c, s) && Began(c, s, a, t, q) && forall r | r in who :: r < c.n
    ensures Possible(c, s') && Follows(c, s, s', a, who) && HandledBy(c, s, s', t, q, who)
    ensures s'.proposers == s.proposers && s'.kicks == s.kicks && s.net <= s'.net
    ensures Answers(c, s', a, RepliesOf(c, s'.recorders, who, t, q))
    decreases |who|
  {
    if who == {} {
      s' := s;
      FollowsSelf(c, s, a, who);
    } else {
      var r :| r in who;
      hide Handled, Possible, Began, Follows;
      assert |s.recorders| == c.n by { PossibleShape(c, s); }
      var mid := AskAll(c, s, a, t, q, who - {r});
      assert Req(a, r, Asking(c, t, q)) in s.net by { BeganAsks(c, s, a, t, q, r); }
      s' := Handling(c, mid, a, r, t, q);
      FollowsOn(c, s, mid, s', a, who - {r}, {r}, who);
      assert a < |s.proposers| && s.proposers[a].step == t by { BeganAsks(c, s, a, t, q, r); }
      forall k | k in RepliesOf(c, s'.recorders, who, t, q)
        ensures Resp(k, a, Reply(s'.recorders[k], Asking(c, t, q))) in s'.net
      {
        if k != r {
          assert k in RepliesOf(c, mid.recorders, who - {r}, t, q);
        }
      }
    }
  }

  lemma {:induction false} PossibleShape(c: Config, s: Sys)
    requires Possible(c, s)
    ensures WellFormed(c) && Shaped(c, s) && !s.panicked
  {
  }

  lemma {:induction false} BeganAsks(c: Config, s: Sys, a: nat, t: nat, q: Proposal, r: nat)
    requires Began(c, s, a, t, q) && r < c.n
    ensures Req(a, r, Asking(c, t, q)) in s.net && a < |s.proposers| && s.proposers[a].step == t
  {
  }

  // ------------------------------------------------------------------------------- replies

  function Same(n: nat, d: nat): (draws: seq<nat>)
    ensures |draws| == n && forall k | 0 <= k < n :: draws[k] == d
  {
    seq<nat>(n, _ => d)
  }

  function Holds(st: P.State, replies: map<nat, Response>): P.State {
    st.(responses := replies)
  }

  /** Fewer replies than a quorum are just collected. */
  lemma {:induction false} HearSome(c: Config, s: Sys, a: nat, replies: map<nat, Response>, d: nat) returns (s': Sys)
    requires Possible(c, s) && a < |c.proposers| && Answers(c, s, a, replies) && 1 <= d < H
    requires s.proposers[a].decided.None? && s.proposers[a].responses == map[]
    requires |replies| < c.proposers[a].Quorum()
    ensures Possible(c, s') && Follows(c, s, s', a, {}) && s' == s.(proposers := s.proposers[a := Holds(s.proposers[a], replies)])
    decreases |replies|
  {
    PossibleShape(c, s);
    hide Follows;
    if replies == map[] {
      s' := s;
      FollowsSelf(c, s, a, {});
      assert s.proposers[a := Holds(s.proposers[a], replies)] == s.proposers;
    } else {
      var x :| x in replies;
      var rest := replies - {x};
      assert |rest| == |replies| - 1;
      var mid := HearSome(c, s, a, rest, d);
      s' := HearOne(c, mid, a, rest, x, replies[x], d);
      FollowsOn(c, s, mid, s', a, {}, {}, {});
      assert rest[x := replies[x]] == replies;
      assert mid.proposers[a := Holds(s.proposers[a], replies)] == s.proposers[a := Holds(s.proposers[a], replies)];
    }
  }

  /** One more reply, still short of a quorum. */
  lemma {:induction false} HearOne(
    c: Config, s: Sys, a: nat, rest: map<nat, Response>, x: nat, resp: Response, d: nat) returns (s': Sys)
    requires Possible(c, s) && a < |c.proposers| && a < |s.proposers| && 1 <= d < H && x !in rest
    requires Resp(x, a, resp) in s.net && resp.slot == c.slot && resp.reqStep == s.proposers[a].step
    requires s.proposers[a].decided.None? && s.proposers[a].responses == rest
    requires |rest| + 1 < c.proposers[a].Quorum()
    ensures Possible(c, s') && Follows(c, s, s', a, {})
    ensures s' == s.(proposers := s.proposers[a := Holds(s.proposers[a], rest[x := resp])])
  {
    hide P.ProcessQuorum, Follows;
    PossibleShape(c, s);
    var act := Deliver(Resp(x, a, resp), Same(c.n, d));
    assert |rest[x := resp]| == |rest| + 1;
    assert Requests(a, []) == {};
    s' := Step(c, s, act);
    PossibleStep(c, s, act);
    FollowsSelf(c, s, a, {});
    FollowsStep(c, s, s, act, a, {});
  }

  /** A quorum of replies is processed as one. */
  lemma {:induction false} HearQuorum(c: Config, s: Sys, a: nat, replies: map<nat, Response>, d: nat) returns (s': Sys)
    requires Possible(c, s) && a < |c.proposers| && Answers(c, s, a, replies) && 1 <= d < H && c.proposers[a].n == c.n
    requires s.proposers[a].decided.None? && s.proposers[a].responses == map[]
    requires |replies| == c.proposers[a].Quorum()
    requires P.ProcessQuorum(c.proposers[a], Holds(s.proposers[a], replies), Same(c.n, d)).Done?
    ensures Possible(c, s') && Follows(c, s, s', a, {})
    ensures s' == Settle(s, a, P.ProcessQuorum(c.proposers[a], Holds(s.proposers[a], replies), Same(c.n, d)), s.hedge[a])
  {
    hide P.ProcessQuorum, Follows;
    PossibleShape(c, s);
    assert replies != map[];
    var x :| x in replies;
    var rest := replies - {x};
    assert |rest| == |replies| - 1;
    var mid := HearSome(c, s, a, rest, d);
    assert rest[x := replies[x]] == replies;
    var o := P.ProcessQuorum(c.proposers[a], Holds(s.proposers[a], replies), Same(c.n, d));
    var act := Deliver(Resp(x, a, replies[x]), Same(c.n, d));
    assert P.Admit(mid.proposers[a], x, replies[x]) == Holds(s.proposers[a], replies);
    s' := Step(c, mid, act);
    assert s' == Settle(mid, a, o, mid.hedge[a]);
    assert mid.proposers[a := o.st] == s.proposers[a := o.st];
    PossibleStep(c, mid, act);
    FollowsStep(c, s, mid, act, a, {});
  }

  // ------------------------------------------------------- what a quorum at one step says

  datatype Verdict = Decides(v: int) | Adopts(p: Proposal)

  ghost predicate AllFirst(replies: map<nat, Response>, p: Proposal) {
    forall r | r in replies :: replies[r].first == Some(p)
  }

  ghost predicate AllPrior(replies: map<nat, Response>, p: Proposal) {
    forall r | r in replies :: replies[r].priorAgg == Some(p)
  }

  ghost predicate TopFirst(replies: map<nat, Response>, p: Proposal) {
    && (forall r | r in replies :: replies[r].first.Some? && Le(replies[r].first.value, p))
    && exists r :: r in replies && replies[r].first == Some(p)
  }

  /** What replies at its own step make of a proposer that sent `q`. */
  ghost predicate Leads(t: nat, q: Proposal, replies: map<nat, Response>, v: Verdict) {
    && replies != map[] && (forall r | r in replies :: replies[r].step == t)
    && if t % 4 == 0 then
         match v
         case Decides(x) => exists p: Proposal :: p.priority == H && p.value == x && AllFirst(replies, p)
         case Adopts(p) => TopFirst(replies, p) && (p.priority == H ==> !AllFirst(replies, p))
       else if t % 4 == 1 then v == Adopts(q)
       else if t % 4 == 2 then
         exists p :: AllPrior(replies, p) && v == if p == q then Decides(q.value) else Adopts(q)
       else v.Adopts? && AllPrior(replies, v.p)
  }

  lemma {:induction false} BestIs(s: set<Proposal>, p: Proposal)
    requires p in s && forall q | q in s :: Le(q, p)
    ensures Best(s) == Some(p)
  {
    var m := Best(s).value;
    assert Le(p, m) && Le(m, p);
  }

  lemma {:induction false} LeadsInPhaseZero(st: P.State, q: Proposal, replies: map<nat, Response>, v: Verdict)
    requires st.step % 4 == 0 && Leads(st.step, q, replies, v)
    ensures P.ProcessPhase(Holds(st, replies)) == Some(Resulting(Holds(st, replies), v))
  {
    hide Le;
    match v
    case Decides(x) =>
      var p: Proposal :| p.priority == H && p.value == x && AllFirst(replies, p);
      assert P.UniformH(replies, p);
    case Adopts(p) =>
      var r :| r in replies && replies[r].first == Some(p);
      assert forall u: Proposal :: !P.UniformH(replies, u);
      assert P.FastPathValue(replies).None?;
      assert p in P.Firsts(replies);
      BestIs(P.Firsts(replies), p);
  }

  lemma {:induction false} AllPriorBest(replies: map<nat, Response>, p: Proposal)
    requires replies != map[] && AllPrior(replies, p)
    ensures Best(P.PriorAggs(replies)) == Some(p)
  {
    var r :| r in replies;
    assert p in P.PriorAggs(replies);
    BestIs(P.PriorAggs(replies), p);
  }

  function Resulting(st: P.State, v: Verdict): P.State {
    match v
    case Decides(x) => st.(decided := Some(x))
    case Adopts(p) => st.(proposal := p)
  }

  lemma {:induction false} LeadsIs(st: P.State, q: Proposal, replies: map<nat, Response>, v: Verdict)
    requires Leads(st.step, q, replies, v) && (st.step % 4 != 0 ==> st.proposal == q)
    ensures P.AllAtStep(Holds(st, replies))
    ensures P.ProcessPhase(Holds(st, replies)) == Some(Resulting(Holds(st, replies), v))
  {
    if st.step % 4 == 0 {
      LeadsInPhaseZero(st, q, replies, v);
    } else if st.step % 4 == 1 {
    } else if st.step % 4 == 2 {
      var p :| AllPrior(replies, p) && v == if p == q then Decides(q.value) else Adopts(q);
      AllPriorBest(replies, p);
    } else {
      AllPriorBest(replies, v.p);
    }
  }

  // -------------------------------------------------------------------- beginning a step

  /** What a proposer sends for step `t` from the template `p`, every draw being `d`. */
  ghost predicate Begins(pc: P.Config, p: Proposal, t: nat, d: nat, q: Proposal) {
    q == if t == 4 && pc.IsLeader() then Proposal(p.value, H, pc.selfId)
         else if t % 4 == 0 then Proposal(p.value, d, pc.selfId)
         else p
  }

  lemma {:induction false} SettleBegins(c: Config, s: Sys, a: nat, st: P.State, d: nat, q: Proposal, armed: bool)
    requires WellFormed(c) && Shaped(c, s) && a < |c.proposers| && st.decided.None? && 1 <= d < H
    requires Begins(c.proposers[a], st.proposal, st.step, d, q)
    ensures var s' := Settle(s, a, P.BeginStep(c.proposers[a], st, Same(c.n, d)), armed);
            && Shaped(c, s') && s'.panicked == s.panicked && s'.recorders == s.recorders && s'.kicks == s.kicks
            && Began(c, s', a, st.step, q) && s.net <= s'.net && OthersElsewhere(s, s', a)
  {
    var pc, o := c.proposers[a], P.BeginStep(c.proposers[a], st, Same(c.n, d));
    forall r: nat | r < c.n
      ensures Req(a, r, Asking(c, st.step, q)) in Requests(a, o.sends)
    {
      assert o.sends[r] == (r, Asking(c, st.step, q));
    }
  }

  /** A kickoff, and for a hedged proposer the hedge check that follows it: it begins. */
  lemma {:induction false} Kicking(c: Config, s: Sys, a: nat, d: nat, q: Proposal) returns (s': Sys)
    requires Possible(c, s) && a < |c.proposers| && a < |s.proposers| && s.proposers[a].decided.None? && 1 <= d < H
    requires Begins(c.proposers[a], s.proposers[a].proposal, 4, d, q)
    ensures Possible(c, s') && Follows(c, s, s', a, {}) && s'.recorders == s.recorders && s.net <= s'.net
    ensures a < |s.kicks| && s'.kicks == s.kicks[a := s.kicks[a] + 1]
    ensures Began(c, s', a, 4, q) && OthersElsewhere(s, s', a)
  {
    hide P.BeginStep, Follows;
    PossibleShape(c, s);
    FollowsSelf(c, s, a, {});
    var pc, st := c.proposers[a], s.proposers[a].(step := P.FIRST_ROUND_STEP);
    var kick := Kick(a, Same(c.n, d));
    if pc.activationDelay == 0 {
      BeginsDone(pc, st, d);
      SettleBegins(c, s, a, st, d, q, s.hedge[a]);
      s' := Step(c, s, kick);
      PossibleStep(c, s, kick);
      FollowsStep(c, s, s, kick, a, {});
    } else {
      var mid := Armed(c, s, a, d);
      BeginsDone(pc, st, d);
      SettleBegins(c, mid, a, st, d, q, false);
      s' := Step(c, mid, HedgeFires(a, None, Same(c.n, d)));
      PossibleStep(c, mid, HedgeFires(a, None, Same(c.n, d)));
      FollowsStep(c, s, mid, HedgeFires(a, None, Same(c.n, d)), a, {});
      forall b | 0 <= b < |s.proposers| && b != a ensures Elsewhere(s, s', b) {
        assert Elsewhere(mid, s', b);
      }
    }
  }

  /** The kickoff of a hedged proposer arms its hedge timer. */
  lemma {:induction false} Armed(c: Config, s: Sys, a: nat, d: nat) returns (s': Sys)
    requires Possible(c, s) && Shaped(c, s) && a < |c.proposers| && s.proposers[a].decided.None? && 1 <= d < H
    requires c.proposers[a].activationDelay != 0
    ensures Possible(c, s') && Follows(c, s, s', a, {}) && Shaped(c, s') && s'.hedge[a] && s'.recorders == s.recorders && s'.net == s.net
    ensures s'.proposers == s.proposers[a := s.proposers[a].(step := P.FIRST_ROUND_STEP)]
    ensures s'.kicks == s.kicks[a := s.kicks[a] + 1]
  {
    var kick := Kick(a, Same(c.n, d));
    s' := Step(c, s, kick);
    assert Requests(a, []) == {};
    var timers := [(c.proposers[a].activationDelay, P.Hedge)];
    assert timers[0].1 == P.Hedge;
    assert ArmsHedge(timers);
    PossibleStep(c, s, kick);
    FollowsSelf(c, s, a, {});
    FollowsStep(c, s, s, kick, a, {});
  }

  lemma {:induction false} BeginsDone(pc: P.Config, st: P.State, d: nat)
    ensures P.BeginStep(pc, st, Same(pc.n, d)).Done?
  {
  }

  // ------------------------------------------------------------------------ whole exchanges

  /** A quorum of replies with one verdict is delivered: the proposer decides, or sends `q'`
      for the next step, every draw being `d`. */
  lemma {:induction false} Concluding(
    c: Config, s: Sys, a: nat, t: nat, q: Proposal, replies: map<nat, Response>, v: Verdict, d: nat, q': Proposal)
    returns (s': Sys)
    requires Possible(c, s) && a < |c.proposers| && Began(c, s, a, t, q) && 1 <= d < H
    requires Answers(c, s, a, replies) && |replies| == c.n / 2 + 1 && Leads(t, q, replies, v)
    requires v.Adopts? ==> Begins(c.proposers[a], v.p, t + 1, d, q')
    ensures Possible(c, s') && Follows(c, s, s', a, {}) && s'.recorders == s.recorders && s'.kicks == s.kicks && s.net <= s'.net
    ensures OthersElsewhere(s, s', a) && a < |s'.proposers|
    ensures match v
            case Decides(x) => s'.proposers[a].decided == Some(x)
            case Adopts(_) => Began(c, s', a, t + 1, q')
  {
    hide Leads, Answers, P.ProcessPhase, P.AllAtStep, P.BeginStep, Follows;
    PossibleShape(c, s);
    var st, pc := s.proposers[a], c.proposers[a];
    LeadsIs(st, q, replies, v);
    if v.Adopts? {
      var next := Holds(st, replies).(proposal := v.p, step := t + 1);
      BeginsDone(pc, next, d);
      SettleBegins(c, s, a, next, d, q', s.hedge[a]);
    }
    s' := HearQuorum(c, s, a, replies, d);
  }

  /** One full exchange: the recorders of `who` handle what `a` sent, and `a` hears back. */
  lemma {:induction false} Exchange(c: Config, s: Sys, a: nat, t: nat, q: Proposal, who: set<nat>,
                                    after: seq<Isr.Register>, v: Verdict, d: nat, q': Proposal)
    returns (s': Sys)
    requires Possible(c, s) && a < |c.proposers| && Began(c, s, a, t, q) && 1 <= d < H
    requires |s.recorders| == |after| == c.n && (forall r | r in who :: r < c.n) && |who| == c.n / 2 + 1
    requires forall r: nat | r < c.n ::
               after[r] == if r in who then Handled(s.recorders[r], Asking(c, t, q)) else s.recorders[r]
    requires Leads(t, q, RepliesOf(c, after, who, t, q), v)
    requires v.Adopts? ==> Begins(c.proposers[a], v.p, t + 1, d, q')
    ensures Possible(c, s') && Follows(c, s, s', a, who) && s'.recorders == after && s'.kicks == s.kicks && s.net <= s'.net
    ensures OthersElsewhere(s, s', a) && a < |s'.proposers|
    ensures forall r | r in who :: Resp(r, a, Reply(after[r], Asking(c, t, q))) in s'.net
    ensures match v
            case Decides(x) => s'.proposers[a].decided == Some(x)
            case Adopts(_) => Began(c, s', a, t + 1, q')
  {
    hide Handled, Possible, Leads, Began, Begins, Answers, Follows;
    var mid := AskAll(c, s, a, t, q, who);
    assert mid.recorders == after;
    RepliesKnown(c, mid, a, after, who, t, q);
    BeganStillThere(c, s, mid, a, t, q);
    s' := Concluding(c, mid, a, t, q, RepliesOf(c, after, who, t, q), v, d, q');
    FollowsOn(c, s, mid, s', a, who, {}, who);
    forall b | 0 <= b < |s.proposers| && b != a ensures Elsewhere(s, s', b) {
      assert Elsewhere(mid, s', b);
    }
  }

  lemma {:induction false} RepliesKnown(c: Config, s: Sys, a: nat, recorders: seq<Isr.Register>, who: set<nat>, t: nat, q: Proposal)
    requires |recorders| == c.n && (forall r | r in who :: r < c.n) && Answers(c, s, a, RepliesOf(c, recorders, who, t, q))
    ensures |RepliesOf(c, recorders, who, t, q)| == |who|
    ensures forall r | r in who :: Resp(r, a, Reply(recorders[r], Asking(c, t, q))) in s.net
  {
    var replies := RepliesOf(c, recorders, who, t, q);
    assert replies.Keys == who;
    assert |replies.Keys| == |replies|;
    forall r | r in who ensures Resp(r, a, Reply(recorders[r], Asking(c, t, q))) in s.net {
      assert r in replies;
    }
  }

  lemma {:induction false} BeganStillThere(c: Config, s: Sys, s': Sys, a: nat, t: nat, q: Proposal)
    requires Began(c, s, a, t, q) && s'.proposers == s.proposers && s.net <= s'.net
    ensures Began(c, s', a, t, q)
  {
  }
}
