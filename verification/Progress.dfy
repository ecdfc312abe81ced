/** What keeps a slot moving: independent draws reach the recorders, retries that are answered
    complete a quorum, and an undecided proposer always has a timer that will wake it. */
module Progress {
  import opened Proposals
  import opened Recorders
  import opened Quorums
  import opened Concrete
  import opened Invariant
  import opened Preservation
  import opened ProposerRules
  import R = Runs
  import P = Proposer

  // --------------------------------------------------------------------- draws on the wire

  /** Proposer `a` has asked every recorder `r` for step `t` with priority `ps[r]`. */
  ghost predicate AskedWith(c: Config, net: set<Msg>, a: nat, t: nat, v: int, ps: seq<nat>)
    requires a < |c.proposers| && |ps| == c.n
  {
    forall r: nat | r < c.n ::
      Req(a, r, Request(c.slot, t, Proposal(v, ps[r], c.proposers[a].selfId))) in net
  }

  lemma {:induction false} BeginAsksAsDrawn(c: Config, s: Sys, a: nat, st: P.State, ps: seq<nat>, armed: bool)
    requires WellFormed(c) && Shaped(c, s) && a < |c.proposers| && P.DrawsOk(c.proposers[a], ps)
    requires st.step % 4 == 0 && !(st.step == 4 && c.proposers[a].IsLeader())
    ensures AskedWith(c, Settle(s, a, P.BeginStep(c.proposers[a], st, ps), armed).net, a, st.step, st.proposal.value, ps)
  {
    hide P.BeginStep, P.DrawsOk;
    var pc := c.proposers[a];
    DrawsFit(pc, ps);
    var o := P.BeginStep(pc, st, ps);
    BeginAsksEveryone(pc, st, ps);
    BeginDrawsForEach(pc, st, ps);
    forall r: nat | r < c.n
      ensures Req(a, r, Request(c.slot, st.step, Proposal(st.proposal.value, ps[r], pc.selfId))) in Requests(a, o.sends)
    {
      assert o.sends[r].0 == r;
    }
  }

  lemma {:induction false} DrawsFit(pc: P.Config, ps: seq<nat>)
    requires P.DrawsOk(pc, ps)
    ensures |ps| == pc.n
  {
  }

  /** For every vector of priorities there is a kickoff of an unhedged proposer that is not the
      leader, and a hedge check of a waiting one, after which each recorder has been asked with
      exactly its own. */
  lemma {:induction false} EveryDrawIsPossible(c: Config, s: Sys, a: nat, ps: seq<nat>)
    requires WellFormed(c) && Shaped(c, s) && !s.panicked && a < |c.proposers| && P.DrawsOk(c.proposers[a], ps)
    requires s.proposers[a].decided.None? && !c.proposers[a].IsLeader()
    ensures c.proposers[a].activationDelay == 0 ==>
              AskedWith(c, Step(c, s, Kick(a, ps)).net, a, 4, s.proposers[a].proposal.value, ps)
    ensures s.hedge[a] && s.proposers[a].step == 4 ==>
              AskedWith(c, Step(c, s, HedgeFires(a, None, ps)).net, a, 4, s.proposers[a].proposal.value, ps)
  {
    hide P.BeginStep, AskedWith;
    DrawsFit(c.proposers[a], ps);
    var st := s.proposers[a];
    BeginAsksAsDrawn(c, s, a, st.(step := 4), ps, s.hedge[a]);
    if st.step == 4 {
      BeginAsksAsDrawn(c, s, a, st, ps, false);
    }
  }

  /** And when a quorum ends a phase 3, the next round asks each recorder with its own draw. */
  lemma {:induction false} NextRoundAsksAsDrawn(c: Config, s: Sys, a: nat, held: P.State, ps: seq<nat>)
    requires WellFormed(c) && Shaped(c, s) && a < |c.proposers| && P.DrawsOk(c.proposers[a], ps)
    requires held.decided.None? && held.step % 4 == 3 && held.step > 4 && |ps| == c.n
    requires forall r | r in held.responses :: held.responses[r].step == held.step
    requires P.ProcessPhase(held).Some?
    ensures AskedWith(c, Settle(s, a, P.ProcessQuorum(c.proposers[a], held, ps), s.hedge[a]).net,
                      a, held.step + 1, P.ProcessPhase(held).value.proposal.value, ps)
  {
    PhaseThreeRule(held);
    AdvanceRule(c.proposers[a], held, ps);
    hide P.ProcessPhase, P.ProcessQuorum, P.BeginStep, AskedWith;
    BeginAsksAsDrawn(c, s, a, P.ProcessPhase(held).value.(step := held.step + 1), ps, s.hedge[a]);
  }

  // ------------------------------------------------------------------------ first replies

  ghost predicate ShortOfQuorum(c: Config, s: Sys) {
    && |s.proposers| == |c.proposers|
    && forall a | 0 <= a < |c.proposers| && s.proposers[a].decided.None? ::
         |s.proposers[a].responses| < c.proposers[a].Quorum()
  }

  lemma {:induction false} OutcomeIsShort(pc: P.Config, st: P.State, from: nat, resp: Response, draws: seq<nat>)
    requires |draws| == pc.n && (st.decided.None? ==> |st.responses| < pc.Quorum())
    ensures var o := P.OnResponse(pc, st, from, resp, draws);
            o.Done? && o.st.decided.None? ==> |o.st.responses| < pc.Quorum()
  {
    hide P.ProcessPhase, P.PreparedMap, P.PreparedSends;
    if st.decided.Some? || resp.slot != pc.slot || resp.reqStep != st.step {
      ReplyIgnored(pc, st, from, resp, draws);
    } else {
      FirstReplyCounts(pc, st, from, resp, draws);
    }
  }

  lemma {:induction false} TimerIsShort(pc: P.Config, st: P.State, id: P.TimerId, local: Option<nat>, draws: seq<nat>)
    requires |draws| == pc.n && (st.decided.None? ==> |st.responses| < pc.Quorum())
    ensures var o := P.OnTimer(pc, st, id, local, draws);
            o.Done? && o.st.decided.None? ==> |o.st.responses| < pc.Quorum()
  {
    hide P.PreparedMap, P.PreparedSends, P.Resends;
  }

  lemma {:induction false} StepIsShort(c: Config, s: Sys, act: Action)
    requires Shaped(c, s) && ShortOfQuorum(c, s)
    ensures ShortOfQuorum(c, Step(c, s, act))
  {
    hide P.OnResponse, P.OnTimer;
    match act
    case Handle(m) =>
    case Deliver(m, draws) =>
      if Enabled(c, s, act) {
        OutcomeIsShort(c.proposers[m.dst], s.proposers[m.dst], m.src, m.resp, draws);
      }
    case Kick(a, draws) =>
      if Enabled(c, s, act) {
        TimerIsShort(c.proposers[a], s.proposers[a], P.Kickoff, None, draws);
      }
    case HedgeFires(a, local, draws) =>
      if Enabled(c, s, act) {
        TimerIsShort(c.proposers[a], s.proposers[a], P.Hedge, local, draws);
      }
    case RetryFires(a, t) =>
      hide P.Resends;
  }

  /** An undecided proposer is always short of a quorum. */
  lemma {:induction false} AlwaysShort(c: Config, acts: seq<Action>)
    ensures ShortOfQuorum(c, Exec(c, acts))
  {
    if acts == [] {
    } else {
      hide Step, ShortOfQuorum;
      AlwaysShort(c, acts[..|acts| - 1]);
      StepIsShort(c, Exec(c, acts[..|acts| - 1]), acts[|acts| - 1]);
    }
  }

  /** On every run, a second reply from a recorder already heard at this step changes nothing,
      whatever it says. */
  lemma {:induction false} SecondReplyChangesNothing(c: Config, acts: seq<Action>, m: Msg, draws: seq<nat>)
    requires Enabled(c, Exec(c, acts), Deliver(m, draws))
    requires m.src in Exec(c, acts).proposers[m.dst].responses
    ensures Step(c, Exec(c, acts), Deliver(m, draws)) == Exec(c, acts)
  {
    AlwaysShort(c, acts);
    var s := Exec(c, acts);
    hide Exec, P.OnResponse;
    var pc, st := c.proposers[m.dst], s.proposers[m.dst];
    if st.decided.Some? || m.resp.slot != pc.slot || m.resp.reqStep != st.step {
      ReplyIgnored(pc, st, m.src, m.resp, draws);
    } else {
      FirstReplyCounts(pc, st, m.src, m.resp, draws);
    }
    assert Requests(m.dst, []) == {};
  }

  // ------------------------------------------------------------------------------ retries

  /** Recorder `r` has answered proposer `a` at step `t`, and the reply is on the network. */
  ghost predicate Answered(c: Config, net: set<Msg>, a: nat, r: nat, t: nat) {
    exists resp :: Resp(r, a, resp) in net && resp.slot == c.slot && resp.reqStep == t
  }

  /** Proposer `a` is at work on step `t`. */
  ghost predicate WorkingOn(c: Config, s: Sys, a: nat, t: nat) {
    && Shaped(c, s) && !s.panicked && a < |c.proposers|
    && s.proposers[a].decided.None? && s.proposers[a].step == t
  }

  /** No reserved priority past the first step. */
  predicate Plain(t: nat, q: Proposal) {
    t > 4 && t % 4 == 0 ==> q.priority < H
  }

  /** It has decided, or begun a later step and asked every recorder for it. */
  ghost predicate WentOn(c: Config, s: Sys, a: nat, t: nat) {
    a < |s.proposers| && (s.proposers[a].decided.Some? || exists t', q :: BegunPast(c, s, a, t, t', q))
  }

  ghost predicate BegunPast(c: Config, s: Sys, a: nat, t: nat, t': nat, q: Proposal) {
    t' > t && R.Began(c, s, a, t', q) && Plain(t', q)
  }

  /** Nothing but replies of the recorders of `who` being delivered to `a`. */
  ghost predicate OnlyReplies(acts: seq<Action>, a: nat, who: set<nat>) {
    forall k | 0 <= k < |acts| :: acts[k].Deliver? && acts[k].m.Resp? && acts[k].m.dst == a && acts[k].m.src in who
  }

  lemma {:induction false} ExecNext(c: Config, acts: seq<Action>, act: Action)
    ensures Exec(c, acts + [act]) == Step(c, Exec(c, acts), act)
  {
    assert (acts + [act])[..|acts|] == acts;
  }

  /** The outcome `o` of a quorum is that `next` is begun. */
  ghost predicate Begins(pc: P.Config, o: P.Outcome, next: P.State, draws: seq<nat>)
    requires |draws| == pc.n
  {
    next.decided.None? && o == P.BeginStep(pc, next, draws)
  }

  /** A quorum fails, decides, or begins a later step: the next one if all replies are at the
      proposer's step, else one that no reply is past. */
  lemma {:induction false} QuorumBegins(pc: P.Config, st: P.State, draws: seq<nat>)
    requires |draws| == pc.n && st.decided.None?
    ensures var o := P.ProcessQuorum(pc, st, draws);
            || o.Panic? || o.st.decided.Some?
            || exists next :: Begins(pc, o, next, draws) && next.step > st.step && NonePast(st, next.step)
                              && (P.AllAtStep(st) ==> next.step == st.step + 1)
  {
    hide P.BeginStep;
    if P.AllAtStep(st) {
      AdvanceRule(pc, st, draws);
      PhaseKeepsStep(st);
      hide P.ProcessPhase, P.ProcessQuorum;
      if P.ProcessPhase(st).Some? && P.ProcessPhase(st).value.decided.None? {
        assert Begins(pc, P.ProcessQuorum(pc, st, draws), P.ProcessPhase(st).value.(step := st.step + 1), draws);
      }
    } else {
      var k := P.FurthestReply(st.responses);
      var reply := st.responses[k];
      assert forall j | j in st.responses :: P.NotAhead(st.responses, j, k);
      if reply.first.Some? {
        assert reply.step > st.step ==>
                 Begins(pc, P.ProcessQuorum(pc, st, draws), st.(step := reply.step, proposal := reply.first.value), draws);
      }
    }
  }

  ghost predicate NonePast(st: P.State, t: nat) {
    forall r | r in st.responses :: st.responses[r].step <= t
  }

  /** What a begun step is when every draw is 1. */
  lemma {:induction false} SettledBegins(c: Config, s: Sys, a: nat, next: P.State, armed: bool) returns (q: Proposal)
    requires WellFormed(c) && Shaped(c, s) && a < |c.proposers| && next.decided.None?
    ensures var s' := Settle(s, a, P.BeginStep(c.proposers[a], next, R.Same(c.n, 1)), armed);
            && Shaped(c, s') && s'.panicked == s.panicked && s'.recorders == s.recorders && s'.kicks == s.kicks
            && s.net <= s'.net && R.Began(c, s', a, next.step, q) && Plain(next.step, q)
  {
    hide P.BeginStep, Settle;
    var pc := c.proposers[a];
    q := if next.step == 4 && pc.IsLeader() then Proposal(next.proposal.value, H, pc.selfId)
         else if next.step % 4 == 0 then Proposal(next.proposal.value, 1, pc.selfId)
         else next.proposal;
    R.SettleBegins(c, s, a, next, 1, q, armed);
  }

  lemma {:induction false} ReplyStep(c: Config, s: Sys, a: nat, t: nat, r: nat, resp: Response)
    requires WellFormed(c) && WorkingOn(c, s, a, t) && |s.proposers[a].responses| < c.proposers[a].Quorum()
    requires Resp(r, a, resp) in s.net && resp.slot == c.slot && resp.reqStep == t && r !in s.proposers[a].responses
    ensures var s' := Step(c, s, Deliver(Resp(r, a, resp), R.Same(c.n, 1)));
            && s'.kicks == s.kicks && s.net <= s'.net && |s'.proposers| == |s.proposers|
            && (!s'.panicked ==>
                  WentOn(c, s', a, t)
                  || (WorkingOn(c, s', a, t) && s'.proposers[a].responses == s.proposers[a].responses[r := resp]))
  {
    var pc, st, draws := c.proposers[a], s.proposers[a], R.Same(c.n, 1);
    var heard := st.(responses := st.responses[r := resp]);
    FirstReplyCounts(pc, st, r, resp, draws);
    QuorumBegins(pc, heard, draws);
    hide P.OnResponse, P.ProcessQuorum, P.BeginStep, NonePast;
    var o := P.OnResponse(pc, st, r, resp, draws);
    assert Step(c, s, Deliver(Resp(r, a, resp), draws)) == Settle(s, a, o, s.hedge[a]);
    if |st.responses| + 1 >= pc.Quorum() && o.Done? && o.st.decided.None? {
      var next :| Begins(pc, o, next, draws) && next.step > st.step;
      var q := SettledBegins(c, s, a, next, s.hedge[a]);
      assert BegunPast(c, Settle(s, a, o, s.hedge[a]), a, t, next.step, q);
    }
  }

  lemma {:induction false} ShortNow(c: Config, acts: seq<Action>, a: nat)
    requires a < |c.proposers| && Exec(c, acts).proposers[a].decided.None?
    ensures |Exec(c, acts).proposers[a].responses| < c.proposers[a].Quorum()
  {
    hide Exec;
    AlwaysShort(c, acts);
  }

  /** One more reply either completes the quorum, and the proposer goes on, or is collected. */
  lemma {:induction false} HearOne(c: Config, acts: seq<Action>, a: nat, t: nat, r: nat, resp: Response)
    requires WellFormed(c) && StartedOnce(Exec(c, acts)) && WorkingOn(c, Exec(c, acts), a, t)
    requires Resp(r, a, resp) in Exec(c, acts).net && resp.slot == c.slot && resp.reqStep == t
    requires r !in Exec(c, acts).proposers[a].responses
    ensures var s, s' := Exec(c, acts), Exec(c, acts + [Deliver(Resp(r, a, resp), R.Same(c.n, 1))]);
            && StartedOnce(s') && s.net <= s'.net
            && (WentOn(c, s', a, t)
                || (WorkingOn(c, s', a, t)
                    && s'.proposers[a].responses == s.proposers[a].responses[r := resp]))
  {
    hide Exec, Step, WentOn, Inv;
    var act := Deliver(Resp(r, a, resp), R.Same(c.n, 1));
    ExecNext(c, acts, act);
    ShortNow(c, acts, a);
    ReplyStep(c, Exec(c, acts), a, t, r, resp);
    Reachable(c, acts + [act]);
    InvShape(c, Exec(c, acts + [act]), HistoriesOf(c, acts + [act]));
  }

  /** Replies of enough recorders are waiting: delivering them one by one, the proposer goes on. */
  lemma {:induction false} HearUntil(c: Config, acts: seq<Action>, a: nat, t: nat, left: set<nat>) returns (more: seq<Action>)
    requires WellFormed(c) && StartedOnce(Exec(c, acts)) && WorkingOn(c, Exec(c, acts), a, t)
    requires forall r | r in left :: Answered(c, Exec(c, acts).net, a, r, t)
    requires |Exec(c, acts).proposers[a].responses.Keys + left| >= c.proposers[a].Quorum()
    ensures OnlyReplies(more, a, left) && StartedOnce(Exec(c, acts + more)) && WentOn(c, Exec(c, acts + more), a, t)
    decreases |left|
  {
    hide Exec, StartedOnce, WentOn;
    var s := Exec(c, acts);
    if left == {} {
      assert s.proposers[a].responses.Keys + left == s.proposers[a].responses.Keys;
      ShortNow(c, acts, a);
      assert false;
    } else {
      var r :| r in left;
      var rest := left - {r};
      if r in s.proposers[a].responses {
        assert s.proposers[a].responses.Keys + rest == s.proposers[a].responses.Keys + left;
        more := HearUntil(c, acts, a, t, rest);
      } else {
        var resp :| Resp(r, a, resp) in s.net && resp.slot == c.slot && resp.reqStep == t;
        var act := Deliver(Resp(r, a, resp), R.Same(c.n, 1));
        HearOne(c, acts, a, t, r, resp);
        if WentOn(c, Exec(c, acts + [act]), a, t) {
          more := [act];
        } else {
          var s' := Exec(c, acts + [act]);
          assert s'.proposers[a].responses.Keys + rest == s.proposers[a].responses.Keys + left;
          var tail := HearUntil(c, acts + [act], a, t, rest);
          more := [act] + tail;
          assert acts + [act] + tail == acts + more;
        }
      }
    }
  }

  /** The first `k` requests of `sends` that go to `who` have been handled. */
  function Handlings(a: nat, sends: P.Sends, who: set<nat>, k: nat): seq<Action>
    requires k <= |sends|
  {
    if k == 0 then []
    else
      Handlings(a, sends, who, k - 1)
      + if sends[k - 1].0 in who then [Handle(Req(a, sends[k - 1].0, sends[k - 1].1))] else []
  }

  lemma {:induction false} HandlingOne(c: Config, acts: seq<Action>, a: nat, r: nat, req: Request)
    requires r < c.n && req.slot == c.slot && Req(a, r, req) in Exec(c, acts).net && !Exec(c, acts).panicked
    ensures var s, s' := Exec(c, acts), Exec(c, acts + [Handle(Req(a, r, req))]);
            && s'.proposers == s.proposers && s'.kicks == s.kicks && !s'.panicked && s.net <= s'.net
            && Answered(c, s'.net, a, r, req.reqStep)
  {
    var s, act := Exec(c, acts), Handle(Req(a, r, req));
    ExecNext(c, acts, act);
    var reply := Reply(Handled(s.recorders[r], req), req);
    assert Resp(r, a, reply) in Exec(c, acts + [act]).net;
  }

  lemma {:induction false} HandlingAll(c: Config, acts: seq<Action>, a: nat, t: nat, sends: P.Sends, who: set<nat>, k: nat)
    requires k <= |sends| && !Exec(c, acts).panicked && Sent(c, Exec(c, acts).net, a, t, sends)
    ensures var s, s' := Exec(c, acts), Exec(c, acts + Handlings(a, sends, who, k));
            && s'.proposers == s.proposers && s'.kicks == s.kicks && !s'.panicked && s.net <= s'.net
            && forall i | 0 <= i < k && sends[i].0 in who :: Answered(c, s'.net, a, sends[i].0, t)
  {
    hide Exec;
    if k == 0 {
      assert acts + Handlings(a, sends, who, k) == acts;
    } else {
      HandlingAll(c, acts, a, t, sends, who, k - 1);
      var before := acts + Handlings(a, sends, who, k - 1);
      var all := acts + Handlings(a, sends, who, k);
      if sends[k - 1].0 in who {
        HandlingOne(c, before, a, sends[k - 1].0, sends[k - 1].1);
        assert all == before + [Handle(Req(a, sends[k - 1].0, sends[k - 1].1))];
        forall i | 0 <= i < k && sends[i].0 in who ensures Answered(c, Exec(c, all).net, a, sends[i].0, t) {
          if i < k - 1 {
            AnsweredStays(c, Exec(c, before).net, Exec(c, all).net, a, sends[i].0, t);
          }
        }
      } else {
        assert all == before;
      }
    }
  }

  lemma {:induction false} AnsweredStays(c: Config, net: set<Msg>, net': set<Msg>, a: nat, r: nat, t: nat)
    requires Answered(c, net, a, r, t) && net <= net'
    ensures Answered(c, net', a, r, t)
  {
  }

  function SendsOf(o: P.Outcome): P.Sends {
    if o.Done? then o.sends else []
  }

  /** What a retry of proposer `a` would send. */
  function Again(c: Config, s: Sys, a: nat, t: nat): P.Sends
    requires a < |c.proposers| && a < |s.proposers|
  {
    SendsOf(P.OnRetry(c.proposers[a], s.proposers[a], t))
  }

  /** They are requests of the current step, all on the network. */
  ghost predicate Sent(c: Config, net: set<Msg>, a: nat, t: nat, sends: P.Sends) {
    forall k | 0 <= k < |sends| ::
      sends[k].0 < c.n && sends[k].1.slot == c.slot && sends[k].1.reqStep == t
      && Req(a, sends[k].0, sends[k].1) in net
  }

  lemma {:induction false} RetryStep(c: Config, s: Sys, a: nat, t: nat)
    requires WellFormed(c) && WorkingOn(c, s, a, t) && s.proposers[a].activated
    requires |s.proposers[a].responses| < c.proposers[a].Quorum()
    requires forall r: nat | r < c.n :: r in s.proposers[a].sent
    ensures var s' := Step(c, s, RetryFires(a, t));
            && WorkingOn(c, s', a, t) && s'.kicks == s.kicks && s.net <= s'.net
            && s'.proposers[a].responses == s.proposers[a].responses
            && Sent(c, s'.net, a, t, Again(c, s, a, t)) && AllNamed(s.proposers[a], c.n, Again(c, s, a, t))
  {
    RetryAsks(c.proposers[a], s.proposers[a]);
    hide P.OnRetry;
    var o := P.OnRetry(c.proposers[a], s.proposers[a], t);
    forall k | 0 <= k < |o.sends| ensures Req(a, o.sends[k].0, o.sends[k].1) in Requests(a, o.sends) {
    }
  }

  lemma {:induction false} SentToAll(c: Config, acts: seq<Action>, a: nat)
    requires WellFormed(c) && StartedOnce(Exec(c, acts)) && a < |c.proposers| && Exec(c, acts).proposers[a].activated
    ensures forall r: nat | r < c.n :: r in Exec(c, acts).proposers[a].sent
  {
    hide Exec;
    var s, h := Exec(c, acts), HistoriesOf(c, acts);
    Reachable(c, acts);
    assert ProposerOk(c, h, s.net, a, s.proposers[a], s.hedge[a], s.kicks[a]);
  }

  /** What firing the retry timer of the current step leaves: the same proposer, its retries
      aside, and its requests to all silent recorders on the network. */
  lemma {:induction false} RetryFired(c: Config, acts: seq<Action>, a: nat, t: nat)
    requires WellFormed(c) && StartedOnce(Exec(c, acts)) && WorkingOn(c, Exec(c, acts), a, t)
    requires Exec(c, acts).proposers[a].activated
    ensures var s, s' := Exec(c, acts), Exec(c, acts + [RetryFires(a, t)]);
            && WorkingOn(c, s', a, t) && s'.kicks == s.kicks && s.net <= s'.net
            && s'.proposers[a].responses == s.proposers[a].responses
            && Sent(c, s'.net, a, t, Again(c, s, a, t)) && AllNamed(s.proposers[a], c.n, Again(c, s, a, t))
  {
    hide Exec, Step, Again;
    SentToAll(c, acts, a);
    ShortNow(c, acts, a);
    ExecNext(c, acts, RetryFires(a, t));
    RetryStep(c, Exec(c, acts), a, t);
  }

  lemma {:induction false} RetryAsks(pc: P.Config, st: P.State)
    requires st.decided.None? && st.activated && |st.responses| < pc.Quorum()
    requires forall r: nat | r < pc.n :: r in st.sent
    ensures var o := P.OnRetry(pc, st, st.step);
            && o.Done? && o.st == st.(retries := o.st.retries)
            && AllResends(pc, st, pc.n, o.sends) && AllNamed(st, pc.n, o.sends)
  {
    hide P.Resends;
    ResendsInOrder(pc, st, pc.n);
  }

  /** Retries make progress: from any reachable state, if the retry timer of an active,
      undecided proposer fires, some majority handles what it resends, and their replies
      arrive, the quorum completes: the proposer decides, or begins a later step and asks
      every recorder for it. */
  lemma {:induction false} AnsweredRetryCompletes(c: Config, acts: seq<Action>, a: nat, t: nat, who: set<nat>)
    returns (replies: seq<Action>)
    requires WellFormed(c) && StartedOnce(Exec(c, acts)) && WorkingOn(c, Exec(c, acts), a, t)
    requires Exec(c, acts).proposers[a].activated && IsQuorum(c.n, who)
    ensures var sends := Again(c, Exec(c, acts), a, t);
            var all := acts + [RetryFires(a, t)] + Handlings(a, sends, who, |sends|) + replies;
            OnlyReplies(replies, a, who) && StartedOnce(Exec(c, all)) && WentOn(c, Exec(c, all), a, t)
  {
    hide Exec, WentOn, Again, Sent, AllNamed, Answered;
    var s := Exec(c, acts);
    var sends := Again(c, s, a, t);
    RetryFired(c, acts, a, t);
    var fired := acts + [RetryFires(a, t)];
    HandlingAll(c, fired, a, t, sends, who, |sends|);
    var handled := fired + Handlings(a, sends, who, |sends|);
    var silent := set r | r in who && r !in s.proposers[a].responses;
    forall r | r in silent ensures Answered(c, Exec(c, handled).net, a, r, t) {
      NamedAt(c, s.proposers[a], sends, r);
    }
    SubsetCardinality(who, s.proposers[a].responses.Keys + silent);
    replies := HearUntil(c, handled, a, t, silent);
  }

  lemma {:induction false} NamedAt(c: Config, st: P.State, sends: P.Sends, r: nat)
    requires AllNamed(st, c.n, sends) && r < c.n && r !in st.responses
    ensures exists k :: 0 <= k < |sends| && sends[k].0 == r
  {
    assert Names(sends, r);
  }
}
