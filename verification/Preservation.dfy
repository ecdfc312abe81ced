/** Every action keeps the invariant, and no `expect` can fail, while each proposer instance
    is started at most once. */
module Preservation {
  import opened Proposals
  import opened Recorders
  import opened Concrete
  import opened Facts
  import opened Invariant
  import opened QuorumFacts
  import P = Proposer

  // ------------------------------------------------------------ the next step's proposals

  ghost predicate NextJustified(c: Config, h: Histories, net: set<Msg>, pc: P.Config, st: P.State, draws: seq<nat>)
    requires |h| == c.n && |draws| == pc.n
  {
    forall r | 0 <= r < pc.n :: Justified(c, h, net, st.step, P.Prepared(pc, st, draws, r))
  }

  lemma {:induction false} PhaseZeroNext(c: Config, h: Histories, net: set<Msg>, pc: P.Config, st: P.State, draws: seq<nat>)
    requires Backed(c.n, h, st) && st.step % 4 == 0 && st.step >= 4 && |draws| == pc.n
    ensures P.Firsts(st.responses) != {}
    ensures NextJustified(c, h, net, pc, st.(proposal := Best(P.Firsts(st.responses)).value, step := st.step + 1), draws)
  {
    hide Le, Backed, FirstBest, AllJustified;
    BestFirst(c.n, h, st);
    assert (st.step + 1) % 4 == 1;
  }

  lemma {:induction false} SpreadNext(c: Config, h: Histories, net: set<Msg>, pc: P.Config, st: P.State, draws: seq<nat>)
    requires Backed(c.n, h, st) && (st.step % 4 == 1 || st.step % 4 == 2) && st.step >= 4 && |draws| == pc.n
    requires SentAt(net, st.step, st.proposal) && forall r | r in st.sent :: st.sent[r] == st.proposal
    ensures NextJustified(c, h, net, pc, st.(step := st.step + 1), draws)
  {
    QuorumSpreads(c.n, h, st);
    assert (st.step + 1) % 4 == st.step % 4 + 1;
  }

  lemma {:induction false} PhaseThreeNext(c: Config, h: Histories, net: set<Msg>, pc: P.Config, st: P.State, draws: seq<nat>)
    requires Backed(c.n, h, st) && st.step % 4 == 3 && st.step >= 4 && P.DrawsOk(pc, draws)
    requires AllJustified(c, h, net) && SentAt(net, st.step, st.proposal)
    ensures P.PriorAggs(st.responses) != {}
    ensures NextJustified(c, h, net, pc, st.(proposal := Best(P.PriorAggs(st.responses)).value, step := st.step + 1), draws)
  {
    assert |h| == c.n;
    hide Le, Backed, AllJustified, SentAt, GatheredBy;
    GatherIsNeverEmpty(c, h, net, st);
    var x := Best(P.PriorAggs(st.responses)).value;
    PriorsWithin(c.n, h, st, x);
    var next := st.(proposal := x, step := st.step + 1);
    assert next.step % 4 == 0 && next.step > 4;
    forall r | 0 <= r < pc.n
      ensures Justified(c, h, net, next.step, P.Prepared(pc, next, draws, r))
    {
      assert Gathered(c.n, h, next.step - 1, x);
      assert NewRound(c.n, h, next.step, P.Prepared(pc, next, draws, r));
    }
  }

  lemma {:induction false} CatchUpNext(c: Config, h: Histories, net: set<Msg>, pc: P.Config, st: P.State, draws: seq<nat>)
    requires |h| == c.n && AllJustified(c, h, net) && SentAt(net, st.step, st.proposal)
    requires st.step > 4 && P.DrawsOk(pc, draws)
    ensures NextJustified(c, h, net, pc, st, draws)
  {
    assert Justified(c, h, net, st.step, st.proposal);
    forall r | 0 <= r < pc.n
      ensures Justified(c, h, net, st.step, P.Prepared(pc, st, draws, r))
    {
      if st.step % 4 == 0 {
        assert NewRound(c.n, h, st.step, st.proposal);
        assert NewRound(c.n, h, st.step, P.Prepared(pc, st, draws, r));
      }
    }
  }

  // ----------------------------------------------------------------- processing a quorum

  /** What an all-at-step quorum makes of the proposer, given the invariant. */
  ghost predicate PhaseResult(c: Config, h: Histories, net: set<Msg>, pc: P.Config, st: P.State, draws: seq<nat>, next: P.State)
    requires |h| == c.n && |draws| == pc.n
  {
    && P.ProcessPhase(st) == Some(next)
    && next == st.(proposal := next.proposal, decided := next.decided)
    && (next.decided.Some? ==> next.proposal == st.proposal && Warranted(c, h, net, st.step, next.decided.value))
    && (next.decided.None? ==> NextJustified(c, h, net, pc, next.(step := st.step + 1), draws))
  }

  lemma {:induction false} FastDecisionWarranted(c: Config, h: Histories, net: set<Msg>, st: P.State)
    requires Backed(c.n, h, st) && st.step % 4 == 0 && st.step >= 4
    requires AllJustified(c, h, net) && RecordedWasSent(c.n, h, net) && P.FastPathValue(st.responses).Some?
    ensures Warranted(c, h, net, st.step, P.FastPathValue(st.responses).value)
  {
    hide Backed, AllJustified, RecordedWasSent, P.FastPathValue, Chosen, FastChosen, SentAt;
    var p :| P.UniformH(st.responses, p);
    FastPathIsChoice(c, h, net, st, p);
  }

  lemma {:induction false} PhaseZeroSound(c: Config, h: Histories, net: set<Msg>, pc: P.Config, st: P.State, draws: seq<nat>)
    requires Backed(c.n, h, st) && st.step >= 4 && st.decided.None? && P.DrawsOk(pc, draws)
    requires AllJustified(c, h, net) && RecordedWasSent(c.n, h, net) && st.step % 4 == 0
    ensures P.ProcessPhase(st).Some? && PhaseResult(c, h, net, pc, st, draws, P.ProcessPhase(st).value)
  {
    hide Backed, AllJustified, RecordedWasSent, NextJustified, P.FastPathValue, P.Firsts, P.UniformH, Warranted;
    PhaseZeroNext(c, h, net, pc, st, draws);
    if P.FastPathValue(st.responses).Some? {
      FastDecisionWarranted(c, h, net, st);
    }
  }

  lemma {:induction false} PhaseTwoSound(c: Config, h: Histories, net: set<Msg>, pc: P.Config, st: P.State, draws: seq<nat>)
    requires Backed(c.n, h, st) && st.step >= 4 && st.decided.None? && P.DrawsOk(pc, draws)
    requires st.step % 4 == 1 || st.step % 4 == 2
    requires SentAt(net, st.step, st.proposal) && forall r | r in st.sent :: st.sent[r] == st.proposal
    ensures P.ProcessPhase(st).Some? && PhaseResult(c, h, net, pc, st, draws, P.ProcessPhase(st).value)
  {
    SpreadNext(c, h, net, pc, st, draws);
    hide Backed, NextJustified;
    if st.step % 4 == 2 && Best(P.PriorAggs(st.responses)) == Some(st.proposal) {
      PhaseTwoIsChoice(c, h, net, st);
    }
  }

  /** `ProcessPhase` succeeds; it either leaves a justified next step or decides a value
      that a choice warrants. */
  lemma {:induction false} PhaseSound(c: Config, h: Histories, net: set<Msg>, pc: P.Config, st: P.State, draws: seq<nat>)
    requires Backed(c.n, h, st) && st.step >= 4 && st.decided.None? && P.DrawsOk(pc, draws)
    requires AllJustified(c, h, net) && RecordedWasSent(c.n, h, net)
    requires st.step % 4 != 0 ==> SentAt(net, st.step, st.proposal) && forall r | r in st.sent :: st.sent[r] == st.proposal
    ensures P.ProcessPhase(st).Some? && PhaseResult(c, h, net, pc, st, draws, P.ProcessPhase(st).value)
  {
    hide Backed, AllJustified, RecordedWasSent, NextJustified;
    if st.step % 4 == 0 {
      PhaseZeroSound(c, h, net, pc, st, draws);
    } else if st.step % 4 == 3 {
      PhaseThreeNext(c, h, net, pc, st, draws);
    } else {
      PhaseTwoSound(c, h, net, pc, st, draws);
    }
  }

  /** A proposer that keeps its step and what it sent, and sends nothing new. */
  lemma {:induction false} QuietKeepsInv(c: Config, s: Sys, s': Sys, h: Histories, a: nat)
    requires Inv(c, s, h) && OnlyMoved(c, s, s', a) && s'.net == s.net
    requires KeepsRequests(s.proposers[a], s'.proposers[a])
    requires ProposerOk(c, h, s'.net, a, s'.proposers[a], s'.hedge[a], s'.kicks[a])
    ensures Inv(c, s', h)
  {
    MoveKeepsInv(c, s, s', h, a);
  }

  lemma {:induction false} DecideKeepsInv(c: Config, s: Sys, s': Sys, h: Histories, a: nat, st: P.State, v: int)
    requires Holding(c, s, h, a, st) && Warranted(c, h, s.net, st.step, v)
    requires OnlyMoved(c, s, s', a) && s'.net == s.net && s'.proposers[a] == st.(decided := Some(v))
    requires s'.hedge[a] == s.hedge[a] && s'.kicks[a] == s.kicks[a]
    ensures Inv(c, s', h)
  {
    assert ProposerOk(c, h, s.net, a, s.proposers[a], s.hedge[a], s.kicks[a]);
    QuietKeepsInv(c, s, s', h, a);
  }

  lemma {:induction false} HoldingPhase(c: Config, s: Sys, h: Histories, a: nat, st: P.State, draws: seq<nat>) returns (next: P.State)
    requires Holding(c, s, h, a, st) && P.AllAtStep(st) && P.DrawsOk(c.proposers[a], draws)
    ensures PhaseResult(c, h, s.net, c.proposers[a], st, draws, next)
  {
    QuorumBacks(c, s, h, a, st);
    if st.step % 4 != 0 {
      TemplateWasSent(c, s, h, a, st);
    }
    PhaseSound(c, h, s.net, c.proposers[a], st, draws);
    next := P.ProcessPhase(st).value;
  }

  /** What settling a callback leaves behind. */
  lemma {:induction false} Settled(c: Config, s: Sys, a: nat, o: P.Outcome)
    requires Shaped(c, s) && !s.panicked && a < |c.proposers| && o.Done?
    ensures var s' := Settle(s, a, o, s.hedge[a]);
            && Ran(c, s, s', a, o) && s'.kicks == s.kicks
            && s'.hedge[a] == (s.hedge[a] || ArmsHedge(o.timers))
            && (o.sends == [] ==> s'.net == s.net)
  {
    assert Requests(a, []) == {};
  }

  lemma {:induction false} AdvanceBegins(
    c: Config, s: Sys, h: Histories, a: nat, st: P.State, next: P.State, draws: seq<nat>)
    requires Holding(c, s, h, a, st) && P.DrawsOk(c.proposers[a], draws)
    requires next.decided.None? && next.step > st.step
    requires NextJustified(c, h, s.net, c.proposers[a], next, draws)
    ensures Inv(c, Settle(s, a, P.BeginStep(c.proposers[a], next, draws), s.hedge[a]), h)
  {
    HoldingJustified(c, s, h, a, st);
    HoldingIsActive(c, s, h, a, st);
    hide Inv, Holding;
    var o := P.BeginStep(c.proposers[a], next, draws);
    Settled(c, s, a, o);
    BeginKeepsInv(c, s, Settle(s, a, o, s.hedge[a]), h, a, next, draws);
  }

  lemma {:induction false} AdvanceDecides(c: Config, s: Sys, h: Histories, a: nat, st: P.State, v: int)
    requires Holding(c, s, h, a, st) && Warranted(c, h, s.net, st.step, v)
    ensures Inv(c, Settle(s, a, P.Done(st.(decided := Some(v)), [], [], 0), s.hedge[a]), h)
  {
    var o := P.Done(st.(decided := Some(v)), [], [], 0);
    Settled(c, s, a, o);
    DecideKeepsInv(c, s, Settle(s, a, o, s.hedge[a]), h, a, st, v);
  }

  lemma {:induction false} AdvanceKeepsInv(c: Config, s: Sys, h: Histories, a: nat, st: P.State, draws: seq<nat>)
    requires Holding(c, s, h, a, st) && P.AllAtStep(st) && P.DrawsOk(c.proposers[a], draws)
    ensures var o := P.ProcessQuorum(c.proposers[a], st, draws);
            o.Done? && Inv(c, Settle(s, a, o, s.hedge[a]), h)
  {
    hide Inv, Holding;
    var next := HoldingPhase(c, s, h, a, st, draws);
    if next.decided.Some? {
      AdvanceDecides(c, s, h, a, st, next.decided.value);
    } else {
      AdvanceBegins(c, s, h, a, st, next.(step := st.step + 1), draws);
    }
  }

  lemma {:induction false} HoldingJustified(c: Config, s: Sys, h: Histories, a: nat, st: P.State)
    requires Holding(c, s, h, a, st)
    ensures Inv(c, s, h) && |h| == c.n && AllJustified(c, h, s.net) && Shaped(c, s) && !s.panicked
    ensures s.proposers[a].step == st.step
    ensures a < |c.proposers| && c.proposers[a].n == c.n
    ensures st.step >= 4 && st.decided.None? && |st.responses| >= c.proposers[a].Quorum()
  {
  }

  lemma {:induction false} HoldingIsActive(c: Config, s: Sys, h: Histories, a: nat, st: P.State)
    requires Holding(c, s, h, a, st)
    ensures !s.hedge[a] && s.kicks[a] > 0 && st.step >= 4
  {
    assert ProposerOk(c, h, s.net, a, s.proposers[a], s.hedge[a], s.kicks[a]);
  }

  lemma {:induction false} CatchUpKeepsInv(c: Config, s: Sys, h: Histories, a: nat, st: P.State, draws: seq<nat>)
    requires Holding(c, s, h, a, st) && !P.AllAtStep(st) && P.DrawsOk(c.proposers[a], draws)
    ensures var o := P.ProcessQuorum(c.proposers[a], st, draws);
            o.Done? && Inv(c, Settle(s, a, o, s.hedge[a]), h)
  {
    hide Inv, Holding, P.AllAtStep;
    HoldingJustified(c, s, h, a, st);
    CatchUpTarget(c, s, h, a, st);
    var reply := st.responses[P.FurthestReply(st.responses)];
    var next := st.(step := reply.step, proposal := reply.first.value);
    CatchUpNext(c, h, s.net, c.proposers[a], next, draws);
    AdvanceBegins(c, s, h, a, st, next, draws);
  }

  // ------------------------------------------------------------------------- the actions

  lemma {:induction false} AdmitKeepsOutstanding(c: Config, s: Sys, h: Histories, m: Msg)
    requires Inv(c, s, h) && m in s.net && m.Resp? && m.dst < |c.proposers|
    requires s.proposers[m.dst].activated && m.resp.reqStep == s.proposers[m.dst].step
    ensures Outstanding(c, s.net, m.dst, P.Admit(s.proposers[m.dst], m.src, m.resp))
  {
    assert ProposerOk(c, h, s.net, m.dst, s.proposers[m.dst], s.hedge[m.dst], s.kicks[m.dst]);
    hide Inv;
    AdmittedIsOutstanding(c, s.net, m, s.proposers[m.dst]);
  }

  lemma {:induction false} AdmittedIsOutstanding(c: Config, net: set<Msg>, m: Msg, st: P.State)
    requires m.Resp? && m in net && Outstanding(c, net, m.dst, st) && m.resp.reqStep == st.step
    ensures Outstanding(c, net, m.dst, P.Admit(st, m.src, m.resp))
  {
    assert m == Resp(m.src, m.dst, m.resp);
  }

  /** A reply to a request a proposer has outstanding only ever reaches an active proposer. */
  lemma {:induction false} RepliedIsActive(c: Config, s: Sys, h: Histories, m: Msg)
    requires Inv(c, s, h) && m in s.net && m.Resp?
    ensures m.dst < |c.proposers| && s.proposers[m.dst].activated
  {
    assert RespOk(c, h, s.net, m);
    var q :| Asked(c, h[m.src], s.net, m, q);
    assert ReqOk(c, s, Req(m.dst, m.src, Request(c.slot, m.resp.reqStep, q)));
  }

  /** The reply answers the proposer's current step and the proposer is still undecided. */
  predicate Relevant(c: Config, s: Sys, m: Msg)
    requires m.Resp? && m.dst < |s.proposers| && m.dst < |c.proposers|
  {
    var st := s.proposers[m.dst];
    st.decided.None? && m.resp.slot == c.proposers[m.dst].slot && m.resp.reqStep == st.step
  }

  lemma {:induction false} DeliverShape(c: Config, s: Sys, m: Msg, draws: seq<nat>)
    requires Enabled(c, s, Deliver(m, draws))
    ensures m.Resp? && m in s.net && m.dst < |s.proposers| && m.dst < |c.proposers|
  {
  }

  lemma {:induction false} DeliverKeepsInv(c: Config, s: Sys, h: Histories, m: Msg, draws: seq<nat>)
    requires Inv(c, s, h) && Enabled(c, s, Deliver(m, draws))
    ensures Inv(c, Step(c, s, Deliver(m, draws)), h)
  {
    hide Inv, Outstanding, Step, P.OnResponse, Enabled;
    InvShape(c, s, h);
    DeliverShape(c, s, m, draws);
    if !Relevant(c, s, m) {
      DeliverIgnored(c, s, m, draws);
    } else {
      RepliedIsActive(c, s, h, m);
      AdmitKeepsOutstanding(c, s, h, m);
      var held := P.Admit(s.proposers[m.dst], m.src, m.resp);
      if |held.responses| < c.proposers[m.dst].Quorum() {
        DeliverCollects(c, s, h, m, draws);
      } else {
        DeliverQuorum(c, s, h, m, draws, held);
      }
    }
  }

  lemma {:induction false} InvShape(c: Config, s: Sys, h: Histories)
    requires Inv(c, s, h)
    ensures Shaped(c, s) && !s.panicked && |h| == c.n && WellFormed(c)
  {
  }

  lemma {:induction false} CollectedOk(
    c: Config, h: Histories, net: set<Msg>, a: nat, st: P.State, st': P.State, hedge: bool, kicks: nat)
    requires a < |c.proposers| && |h| == c.n && ProposerOk(c, h, net, a, st, hedge, kicks) && st.activated
    requires st' == st.(responses := st'.responses) && Outstanding(c, net, a, st')
    ensures ProposerOk(c, h, net, a, st', hedge, kicks)
  {
  }

  lemma {:induction false} DeliverCollects(c: Config, s: Sys, h: Histories, m: Msg, draws: seq<nat>)
    requires Inv(c, s, h) && Enabled(c, s, Deliver(m, draws))
    requires var st := s.proposers[m.dst];
             && Relevant(c, s, m) && st.activated && Outstanding(c, s.net, m.dst, P.Admit(st, m.src, m.resp))
             && |P.Admit(st, m.src, m.resp).responses| < c.proposers[m.dst].Quorum()
    ensures Inv(c, Step(c, s, Deliver(m, draws)), h)
  {
    var a := m.dst;
    var st := s.proposers[a];
    assert ProposerOk(c, h, s.net, a, st, s.hedge[a], s.kicks[a]);
    InvShape(c, s, h);
    hide Inv, Outstanding, ProposerOk;
    Settled(c, s, a, P.OnResponse(c.proposers[a], st, m.src, m.resp, draws));
    CollectedOk(c, h, s.net, a, st, P.Admit(st, m.src, m.resp), s.hedge[a], s.kicks[a]);
    QuietKeepsInv(c, s, Step(c, s, Deliver(m, draws)), h, a);
  }

  lemma {:induction false} DeliverQuorum(c: Config, s: Sys, h: Histories, m: Msg, draws: seq<nat>, held: P.State)
    requires Enabled(c, s, Deliver(m, draws)) && Holding(c, s, h, m.dst, held)
    requires held == P.Admit(s.proposers[m.dst], m.src, m.resp)
    requires Relevant(c, s, m)
    ensures Inv(c, Step(c, s, Deliver(m, draws)), h)
  {
    hide Inv, Holding, P.AllAtStep;
    var a := m.dst;
    HoldingJustified(c, s, h, a, held);
    if P.AllAtStep(held) {
      AdvanceKeepsInv(c, s, h, a, held, draws);
    } else {
      CatchUpKeepsInv(c, s, h, a, held, draws);
    }
  }

  lemma {:induction false} DeliverIgnored(c: Config, s: Sys, m: Msg, draws: seq<nat>)
    requires Shaped(c, s) && Enabled(c, s, Deliver(m, draws))
    requires !Relevant(c, s, m)
    ensures Step(c, s, Deliver(m, draws)) == s
  {
    assert Requests(m.dst, []) == {};
  }

  lemma {:induction false} FirstStepJustified(c: Config, h: Histories, net: set<Msg>, a: nat, st: P.State, draws: seq<nat>)
    requires |h| == c.n && a < |c.proposers| && P.DrawsOk(c.proposers[a], draws)
    requires st.step == 4 && st.proposal == P.Fresh(c.proposers[a]).proposal
    ensures NextJustified(c, h, net, c.proposers[a], st, draws)
  {
    var pc := c.proposers[a];
    forall r | 0 <= r < pc.n
      ensures Justified(c, h, net, 4, P.Prepared(pc, st, draws, r))
    {
      assert Opening(c, a, P.Prepared(pc, st, draws, r));
    }
  }

  /** A decided proposer ignores a kickoff. */
  lemma {:induction false} DecidedIgnoresKick(c: Config, s: Sys, a: nat, draws: seq<nat>)
    requires Shaped(c, s) && Enabled(c, s, Kick(a, draws)) && s.proposers[a].decided.Some?
    ensures Step(c, s, Kick(a, draws)) == s
  {
    assert Requests(a, []) == {};
  }

  lemma {:induction false} KickedFirst(c: Config, s: Sys, a: nat, draws: seq<nat>)
    requires Shaped(c, s) && !s.panicked && Enabled(c, s, Kick(a, draws)) && StartedOnce(Step(c, s, Kick(a, draws)))
    requires s.proposers[a].decided.None?
    ensures s.kicks[a] == 0
  {
    assert Step(c, s, Kick(a, draws)).kicks[a] == s.kicks[a] + 1;
  }

  lemma {:induction false} KickKeepsInv(c: Config, s: Sys, h: Histories, a: nat, draws: seq<nat>)
    requires Inv(c, s, h) && Enabled(c, s, Kick(a, draws)) && s.kicks[a] == 0 && s.proposers[a].decided.None?
    ensures Inv(c, Step(c, s, Kick(a, draws)), h)
  {
    var pc, st := c.proposers[a], s.proposers[a];
    assert ProposerOk(c, h, s.net, a, st, s.hedge[a], s.kicks[a]);
    var s' := Step(c, s, Kick(a, draws));
    var first := st.(step := P.FIRST_ROUND_STEP);
    if pc.activationDelay == 0 {
      FirstStepJustified(c, h, s.net, a, first, draws);
      BeginKeepsInv(c, s, s', h, a, first, draws);
    } else {
      assert s'.net == s.net;
      MoveKeepsInv(c, s, s', h, a);
    }
  }

  lemma {:induction false} HedgeKeepsInv(c: Config, s: Sys, h: Histories, a: nat, local: Option<nat>, draws: seq<nat>)
    requires Inv(c, s, h) && Enabled(c, s, HedgeFires(a, local, draws))
    ensures Inv(c, Step(c, s, HedgeFires(a, local, draws)), h)
  {
    var pc, st := c.proposers[a], s.proposers[a];
    assert ProposerOk(c, h, s.net, a, st, s.hedge[a], s.kicks[a]);
    var s' := Step(c, s, HedgeFires(a, local, draws));
    if P.FreshProgress(st, local) {
      assert s'.net == s.net;
      MoveKeepsInv(c, s, s', h, a);
    } else {
      FirstStepJustified(c, h, s.net, a, st, draws);
      BeginKeepsInv(c, s, s', h, a, st, draws);
    }
  }

  lemma {:induction false} ResendsAreOld(c: Config, net: set<Msg>, a: nat, st: P.State, upto: nat)
    requires a < |c.proposers| && WellFormed(c) && Outstanding(c, net, a, st) && upto <= c.n
    ensures Requests(a, P.Resends(c.proposers[a], st, upto)) <= net
  {
    if upto == 0 {
    } else {
      ResendsAreOld(c, net, a, st, upto - 1);
      var sends, before := P.Resends(c.proposers[a], st, upto), P.Resends(c.proposers[a], st, upto - 1);
      forall k | 0 <= k < |sends|
        ensures Req(a, sends[k].0, sends[k].1) in net
      {
        if k < |before| {
          assert sends[k] == before[k];
          assert Req(a, before[k].0, before[k].1) in Requests(a, before);
        }
      }
    }
  }

  /** A retry only repeats requests already sent, and always finds them. */
  lemma {:induction false} RetryRepeats(c: Config, net: set<Msg>, a: nat, st: P.State, step: nat)
    requires a < |c.proposers| && WellFormed(c) && (st.activated ==> Outstanding(c, net, a, st))
    ensures var o := P.OnRetry(c.proposers[a], st, step);
            && o.Done? && Requests(a, o.sends) <= net && o.st == st.(retries := o.st.retries)
            && (o.st != st ==> st.activated)
            && !ArmsHedge(o.timers)
  {
    if st.activated {
      ResendsAreOld(c, net, a, st, c.n);
    }
  }

  lemma {:induction false} RetryKeepsInv(c: Config, s: Sys, h: Histories, a: nat, step: nat)
    requires Inv(c, s, h) && Enabled(c, s, RetryFires(a, step))
    ensures Inv(c, Step(c, s, RetryFires(a, step)), h)
  {
    assert ProposerOk(c, h, s.net, a, s.proposers[a], s.hedge[a], s.kicks[a]);
    RetryRepeats(c, s.net, a, s.proposers[a], step);
    var s' := Step(c, s, RetryFires(a, step));
    RetriesMatterNot(c, h, s.net, a, s.proposers[a], s'.proposers[a], s.hedge[a], s.kicks[a]);
    QuietKeepsInv(c, s, s', h, a);
  }

  lemma {:induction false} RetriesMatterNot(
    c: Config, h: Histories, net: set<Msg>, a: nat, st: P.State, st': P.State, hedge: bool, kicks: nat)
    requires a < |c.proposers| && |h| == c.n && ProposerOk(c, h, net, a, st, hedge, kicks)
    requires st' == st.(retries := st'.retries) && (st' != st ==> st.activated)
    ensures ProposerOk(c, h, net, a, st', hedge, kicks)
  {
  }

  lemma {:induction false} DisabledChangesNothing(c: Config, s: Sys, act: Action)
    requires Shaped(c, s) && !Enabled(c, s, act)
    ensures Step(c, s, act) == s
  {
  }

  lemma {:induction false} StepKeepsInv(c: Config, s: Sys, h: Histories, act: Action)
    requires Inv(c, s, h) && StartedOnce(Step(c, s, act))
    ensures Inv(c, Step(c, s, act), Record(c, s, h, act))
  {
    if Enabled(c, s, act) {
      match act
      case Handle(m) => HandleKeepsInv(c, s, h, m);
      case Deliver(m, draws) => DeliverKeepsInv(c, s, h, m, draws);
      case Kick(a, draws) =>
        if s.proposers[a].decided.Some? {
          DecidedIgnoresKick(c, s, a, draws);
        } else {
          KickedFirst(c, s, a, draws);
          KickKeepsInv(c, s, h, a, draws);
        }
      case HedgeFires(a, local, draws) => HedgeKeepsInv(c, s, h, a, local, draws);
      case RetryFires(a, step) => RetryKeepsInv(c, s, h, a, step);
    }
  }

  lemma {:induction false} KicksGrow(c: Config, s: Sys, act: Action)
    requires Shaped(c, s) && StartedOnce(Step(c, s, act))
    ensures StartedOnce(s)
  {
    forall a | 0 <= a < |s.kicks| ensures s.kicks[a] <= 1 {
      assert Step(c, s, act).kicks[a] <= 1;
    }
  }

  /** The invariant holds in every reachable state. */
  lemma {:induction false} Reachable(c: Config, acts: seq<Action>)
    requires WellFormed(c) && StartedOnce(Exec(c, acts))
    ensures Inv(c, Exec(c, acts), HistoriesOf(c, acts))
  {
    if acts == [] {
      InvInit(c);
    } else {
      var before, act := acts[..|acts| - 1], acts[|acts| - 1];
      KicksGrow(c, Exec(c, before), act);
      Reachable(c, before);
      StepKeepsInv(c, Exec(c, before), HistoriesOf(c, before), act);
    }
  }
}
