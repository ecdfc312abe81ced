/** A proposer that is the only one ever to send: under any loss and retry pattern it decides
    its own input, on its first completed quorum if it is the leader and on its third
    otherwise. Other proposers may exist, be kicked off and wait. */
module Solo {
  import opened Proposals
  import opened Recorders
  import opened Concrete
  import opened Facts
  import opened Invariant
  import opened QuorumFacts
  import opened Preservation
  import P = Proposer

  /** Every request ever sent is one of proposer `a`. */
  ghost predicate OnlySender(net: set<Msg>, a: nat) {
    forall m | m in net && m.Req? :: m.src == a
  }

  /** Every request for the first step carries an opening of proposer `a`. */
  ghost predicate OpeningsOf(c: Config, net: set<Msg>, a: nat) {
    forall m | m in net && m.Req? && m.req.reqStep == 4 :: Opening(c, a, m.req.proposal)
  }

  /** Every request past the first step carries `q`. */
  ghost predicate LaterIs(net: set<Msg>, q: Proposal) {
    forall m | m in net && m.Req? && m.req.reqStep >= 5 :: m.req.proposal == q
  }

  /** Where a proposer that alone sends stands. */
  ghost predicate Standing(pc: P.Config, st: P.State, net: set<Msg>) {
    && (st.activated ==>
          && 4 <= st.step <= 6 && (pc.IsLeader() ==> st.step == 4)
          && st.proposal.value == pc.initial
          && LaterIs(net, st.proposal))
    && (st.decided.Some? ==>
          st.activated && st.decided.value == pc.initial && st.step == if pc.IsLeader() then 4 else 6)
  }

  ghost predicate SoloOk(c: Config, s: Sys, a: nat) {
    && Shaped(c, s) && a < |c.proposers|
    && OnlySender(s.net, a) && OpeningsOf(c, s.net, a)
    && Standing(c.proposers[a], s.proposers[a], s.net)
  }

  lemma {:induction false} SentIsOk(c: Config, s: Sys, h: Histories, t: nat, q: Proposal) returns (m: Msg)
    requires Inv(c, s, h) && SentAt(s.net, t, q)
    ensures m in s.net && m.Req? && m.req.reqStep == t && m.req.proposal == q
    ensures Shaped(c, s) && |h| == c.n && ReqOk(c, s, m) && Justified(c, h, s.net, t, q)
  {
    m :| m in s.net && m.Req? && m.req.reqStep == t && m.req.proposal == q;
  }

  lemma {:induction false} JustifiedFromFour(c: Config, h: Histories, net: set<Msg>, t: nat, q: Proposal)
    requires |h| == c.n && Justified(c, h, net, t, q)
    ensures t >= 4
  {
  }

  lemma {:induction false} SoloSent(c: Config, s: Sys, h: Histories, a: nat, t: nat, q: Proposal)
    requires Inv(c, s, h) && SoloOk(c, s, a) && SentAt(s.net, t, q)
    ensures s.proposers[a].activated && 4 <= t <= s.proposers[a].step
    ensures t >= 5 ==> q == s.proposers[a].proposal
    ensures t == 4 ==> Opening(c, a, q)
  {
    hide Inv, Justified, SentAt, Opening;
    var m := SentIsOk(c, s, h, t, q);
    JustifiedFromFour(c, h, s.net, t, q);
  }

  /** No recorder is ever ahead of the only sender. */
  lemma {:induction false} SoloAllAtStep(c: Config, s: Sys, h: Histories, a: nat, st: P.State)
    requires SoloOk(c, s, a) && Holding(c, s, h, a, st)
    ensures P.AllAtStep(st)
  {
    forall r | r in st.responses
      ensures st.responses[r].step == st.step
    {
      SoloReply(c, s, h, a, st, r);
    }
  }

  lemma {:induction false} SoloReply(c: Config, s: Sys, h: Histories, a: nat, st: P.State, r: nat)
    requires SoloOk(c, s, a) && Holding(c, s, h, a, st) && r in st.responses
    ensures st.responses[r].step == st.step
    ensures st.step == 4 ==> st.responses[r].first.Some? && Opening(c, a, st.responses[r].first.value)
  {
    hide Inv, SoloOk, Opening, Outstanding, Folded, SentAt;
    SoloHeld(c, s, h, a, st);
    ReplyFacts(c, s, h, a, st, r);
    FirstWasSent(c, s, h, r, st.responses[r]);
    SoloSent(c, s, h, a, st.responses[r].step, st.responses[r].first.value);
  }

  lemma {:induction false} FirstWasSent(c: Config, s: Sys, h: Histories, r: nat, resp: Response)
    requires Inv(c, s, h) && r < |h| && Truthful(h[r], resp) && r < c.n
    ensures resp.first.Some? && SentAt(s.net, resp.step, resp.first.value)
  {
    hide SentAt;
    assert WasSent(h[r], s.net);
  }

  lemma {:induction false} SoloHeld(c: Config, s: Sys, h: Histories, a: nat, st: P.State)
    requires SoloOk(c, s, a) && Holding(c, s, h, a, st)
    ensures Inv(c, s, h) && !s.panicked && st.decided.None? && 4 <= st.step <= 6 && |h| == c.n
    ensures st == s.proposers[a].(responses := st.responses) && st.activated
    ensures st.proposal.value == c.proposers[a].initial && (c.proposers[a].IsLeader() ==> st.step == 4)
    ensures |st.responses| >= c.proposers[a].Quorum()
  {
    hide Inv, Outstanding;
    HoldingJustified(c, s, h, a, st);
  }

  /** What a completed quorum does to a proposer that alone sends. */
  ghost predicate SoloMoved(pc: P.Config, st: P.State, p: P.State) {
    if pc.IsLeader() || st.step == 6 then p == st.(decided := Some(pc.initial))
    else p.decided.None? && p == st.(proposal := p.proposal) && p.proposal.value == pc.initial
         && (st.step == 5 ==> p.proposal == st.proposal)
  }

  lemma {:induction false} SoloPhase(c: Config, s: Sys, h: Histories, a: nat, st: P.State)
    requires SoloOk(c, s, a) && Holding(c, s, h, a, st)
    ensures P.AllAtStep(st)
    ensures P.ProcessPhase(st).Some? && SoloMoved(c.proposers[a], st, P.ProcessPhase(st).value)
  {
    hide Holding, Inv, Backed, P.AllAtStep, P.ProcessPhase, SoloMoved, Opening;
    SoloHeld(c, s, h, a, st);
    SoloAllAtStep(c, s, h, a, st);
    QuorumBacks(c, s, h, a, st);
    if st.step == 4 {
      forall r | r in st.responses
        ensures st.responses[r].first.Some? && Opening(c, a, st.responses[r].first.value)
      {
        SoloReply(c, s, h, a, st, r);
      }
      SoloFirstQuorum(c, h, a, st);
    } else {
      if st.step == 6 {
        TemplateWasSent(c, s, h, a, st);
        SoloThirdQuorum(c, s, h, a, st);
      }
      SoloLaterQuorum(c.proposers[a], st);
    }
  }

  lemma {:induction false} SoloLaterQuorum(pc: P.Config, st: P.State)
    requires (st.step == 5 || st.step == 6) && !pc.IsLeader() && st.decided.None? && st.proposal.value == pc.initial
    requires st.step == 6 ==> Best(P.PriorAggs(st.responses)) == Some(st.proposal)
    ensures P.ProcessPhase(st).Some? && SoloMoved(pc, st, P.ProcessPhase(st).value)
  {
  }

  lemma {:induction false} SoloFirstQuorum(c: Config, h: Histories, a: nat, st: P.State)
    requires a < |c.proposers| && Backed(c.n, h, st) && st.step == 4 && st.decided.None?
    requires forall r | r in st.responses :: st.responses[r].first.Some? && Opening(c, a, st.responses[r].first.value)
    ensures P.ProcessPhase(st).Some? && SoloMoved(c.proposers[a], st, P.ProcessPhase(st).value)
  {
    hide Le, Backs, Folded;
    var pc := c.proposers[a];
    var r := SomeReply(c.n, h, st);
    if pc.IsLeader() {
      var top := Proposal(pc.initial, H, pc.selfId);
      assert st.responses != map[];
      assert P.UniformH(st.responses, top);
    } else {
      assert forall p: Proposal :: !P.UniformH(st.responses, p) by {
        assert st.responses[r].first.value.priority < H;
      }
      assert st.responses[r].first.value in P.Firsts(st.responses);
      var b := Best(P.Firsts(st.responses)).value;
      assert b.value == pc.initial;
    }
  }

  lemma {:induction false} BestPriorWasSent(n: nat, h: Histories, net: set<Msg>, st: P.State, b: Proposal)
    requires Backed(n, h, st) && RecordedWasSent(n, h, net) && Best(P.PriorAggs(st.responses)) == Some(b)
    ensures SentAt(net, st.step - 1, b)
  {
    hide SentAt, Folded, Best;
    var r :| r in st.responses && st.responses[r].priorAgg.Some? && st.responses[r].priorAgg.value == b;
    assert r in st.responses.Keys;
    assert Backs(h[r], st.responses[r], st.step, st.sent[r]);
    assert WasSent(h[r], net);
  }

  lemma {:induction false} InvRecorded(c: Config, s: Sys, h: Histories)
    requires Inv(c, s, h)
    ensures |h| == c.n && AllJustified(c, h, s.net) && RecordedWasSent(c.n, h, s.net)
  {
  }

  lemma {:induction false} SoloThirdQuorum(c: Config, s: Sys, h: Histories, a: nat, st: P.State)
    requires Inv(c, s, h) && SoloOk(c, s, a) && Backed(c.n, h, st) && st.step == 6
    requires st.proposal == s.proposers[a].proposal && SentAt(s.net, st.step, st.proposal)
    ensures Best(P.PriorAggs(st.responses)) == Some(st.proposal)
  {
    hide Inv, Backed, SoloOk, AllJustified, RecordedWasSent, P.PriorAggs, SentAt, Opening, Le;
    InvRecorded(c, s, h);
    GatherIsNeverEmpty(c, h, s.net, st);
    var b := Best(P.PriorAggs(st.responses)).value;
    BestPriorWasSent(c.n, h, s.net, st, b);
    SoloSent(c, s, h, a, 5, b);
  }

  // ------------------------------------------------------------------------ preservation

  /** What beginning a step adds to the network, when the step's template is `st.proposal`. */
  lemma {:induction false} BegunRequests(c: Config, net: set<Msg>, a: nat, st: P.State, draws: seq<nat>)
    requires WellFormed(c) && a < |c.proposers| && P.DrawsOk(c.proposers[a], draws) && 4 <= st.step <= 6
    requires st.proposal.value == c.proposers[a].initial && OnlySender(net, a) && OpeningsOf(c, net, a)
    requires LaterIs(net, st.proposal)
    ensures var net' := net + Requests(a, P.BeginStep(c.proposers[a], st, draws).sends);
            OnlySender(net', a) && OpeningsOf(c, net', a) && LaterIs(net', st.proposal)
  {
    var o := P.BeginStep(c.proposers[a], st, draws);
    forall m | m in Requests(a, o.sends)
      ensures m.Req? && m.src == a && (m.req.reqStep == 4 ==> Opening(c, a, m.req.proposal))
      ensures m.req.reqStep >= 5 ==> m.req.proposal == st.proposal
    {
      var k :| 0 <= k < |o.sends| && m == Req(a, o.sends[k].0, o.sends[k].1);
      assert o.sends[k] == (k, Request(c.proposers[a].slot, st.step, P.Prepared(c.proposers[a], st, draws, k)));
    }
  }

  lemma {:induction false} SoloBegins(c: Config, s: Sys, s': Sys, a: nat, st: P.State, draws: seq<nat>)
    requires WellFormed(c) && SoloOk(c, s, a) && P.DrawsOk(c.proposers[a], draws)
    requires Ran(c, s, s', a, P.BeginStep(c.proposers[a], st, draws))
    requires st.decided.None? && 4 <= st.step <= 6 && st.proposal.value == c.proposers[a].initial
    requires c.proposers[a].IsLeader() ==> st.step == 4
    requires LaterIs(s.net, st.proposal)
    ensures SoloOk(c, s', a)
  {
    BegunRequests(c, s.net, a, st, draws);
    hide OnlySender, OpeningsOf, LaterIs, P.PreparedMap, P.PreparedSends;
  }

  /** Before the only sender has gone past step 4, no later request exists. */
  lemma {:induction false} NothingLater(c: Config, s: Sys, h: Histories, a: nat, q: Proposal)
    requires Inv(c, s, h) && SoloOk(c, s, a) && (s.proposers[a].activated ==> s.proposers[a].step == 4)
    ensures LaterIs(s.net, q)
  {
    hide Inv, Opening;
    forall m | m in s.net && m.Req?
      ensures s.proposers[a].activated && m.req.reqStep <= s.proposers[a].step
    {
      assert SentAt(s.net, m.req.reqStep, m.req.proposal);
      SoloSent(c, s, h, a, m.req.reqStep, m.req.proposal);
    }
  }

  lemma {:induction false} SoloAdvances(c: Config, s: Sys, h: Histories, a: nat, held: P.State, next: P.State, draws: seq<nat>)
    requires Inv(c, s, h) && SoloOk(c, s, a) && !s.panicked && P.DrawsOk(c.proposers[a], draws)
    requires held == s.proposers[a].(responses := held.responses) && held.activated && held.step < 6
    requires !c.proposers[a].IsLeader() && next == held.(proposal := next.proposal, step := held.step + 1)
    requires next.decided.None? && next.proposal.value == c.proposers[a].initial
    requires held.step == 5 ==> next.proposal == held.proposal
    ensures SoloOk(c, Settle(s, a, P.BeginStep(c.proposers[a], next, draws), s.hedge[a]), a)
  {
    hide Inv, OnlySender, OpeningsOf, LaterIs;
    InvShape(c, s, h);
    var o := P.BeginStep(c.proposers[a], next, draws);
    if held.step == 4 {
      NothingLater(c, s, h, a, next.proposal);
    }
    Settled(c, s, a, o);
    SoloBegins(c, s, Settle(s, a, o, s.hedge[a]), a, next, draws);
  }

  lemma {:induction false} SoloDecides(c: Config, s: Sys, a: nat, held: P.State)
    requires SoloOk(c, s, a) && !s.panicked && held.activated
    requires held == s.proposers[a].(responses := held.responses)
    requires c.proposers[a].IsLeader() || held.step == 6
    ensures var o := P.Done(held.(decided := Some(c.proposers[a].initial)), [], [], 0);
            SoloOk(c, Settle(s, a, o, s.hedge[a]), a)
  {
    hide OnlySender, OpeningsOf, LaterIs;
    Settled(c, s, a, P.Done(held.(decided := Some(c.proposers[a].initial)), [], [], 0));
  }

  /** How a quorum is processed, given what its phase amounts to. */
  lemma {:induction false} QuorumOutcome(pc: P.Config, st: P.State, draws: seq<nat>)
    requires |draws| == pc.n && P.AllAtStep(st) && P.ProcessPhase(st).Some?
    ensures var p := P.ProcessPhase(st).value;
            P.ProcessQuorum(pc, st, draws)
            == if p.decided.Some? then P.Done(p, [], [], 0) else P.BeginStep(pc, p.(step := p.step + 1), draws)
  {
    hide P.AllAtStep, P.ProcessPhase, P.BeginStep;
  }

  /** A completed quorum either decides or begins the next step. */
  lemma {:induction false} SoloQuorum(c: Config, s: Sys, h: Histories, a: nat, held: P.State, draws: seq<nat>)
    requires SoloOk(c, s, a) && Holding(c, s, h, a, held) && P.DrawsOk(c.proposers[a], draws)
    ensures var pc, o := c.proposers[a], P.ProcessQuorum(c.proposers[a], held, draws);
            && o.Done? && SoloOk(c, Settle(s, a, o, s.hedge[a]), a)
            && if pc.IsLeader() || held.step == 6
               then o.st.decided == Some(pc.initial) && o.st.step == held.step
               else o.st.decided.None? && o.st.step == held.step + 1
  {
    hide Inv, Holding, SoloOk, P.AllAtStep, P.ProcessPhase, P.ProcessQuorum, P.PreparedMap, P.PreparedSends;
    SoloHeld(c, s, h, a, held);
    SoloPhase(c, s, h, a, held);
    SoloIndex(c, s, h, a);
    var pc := c.proposers[a];
    var next := P.ProcessPhase(held).value;
    QuorumOutcome(pc, held, draws);
    if pc.IsLeader() || held.step == 6 {
      SoloDecides(c, s, a, held);
    } else {
      SoloAdvances(c, s, h, a, held, next.(step := held.step + 1), draws);
    }
  }

  lemma {:induction false} SoloIndex(c: Config, s: Sys, h: Histories, a: nat)
    requires SoloOk(c, s, a) && Inv(c, s, h)
    ensures Shaped(c, s) && a < |c.proposers| && c.proposers[a].n == c.n && !s.panicked
  {
  }

  /** A reply only ever reaches the only sender. */
  lemma {:induction false} RepliesAreMine(c: Config, s: Sys, h: Histories, a: nat, m: Msg)
    requires Inv(c, s, h) && OnlySender(s.net, a) && m in s.net && m.Resp?
    ensures m.dst == a
  {
    assert RespOk(c, h, s.net, m);
    var q :| Asked(c, h[m.src], s.net, m, q);
    assert Req(m.dst, m.src, Request(c.slot, m.resp.reqStep, q)) in s.net;
  }

  /** The reply completes the quorum of a proposer that is still undecided at that step. */
  predicate Completes(c: Config, s: Sys, m: Msg)
    requires m.Resp? && m.dst < |s.proposers| && m.dst < |c.proposers|
  {
    && Relevant(c, s, m)
    && |P.Admit(s.proposers[m.dst], m.src, m.resp).responses| >= c.proposers[m.dst].Quorum()
  }

  lemma {:induction false} HoldingArises(c: Config, s: Sys, h: Histories, m: Msg)
    requires Inv(c, s, h) && m in s.net && m.Resp? && m.dst < |s.proposers| && m.dst < |c.proposers|
    requires Completes(c, s, m)
    ensures Holding(c, s, h, m.dst, P.Admit(s.proposers[m.dst], m.src, m.resp))
  {
    hide Inv, Outstanding;
    RepliedIsActive(c, s, h, m);
    AdmitKeepsOutstanding(c, s, h, m);
  }

  lemma {:induction false} DeliverCompletes(c: Config, s: Sys, m: Msg, draws: seq<nat>)
    requires Shaped(c, s) && !s.panicked && Enabled(c, s, Deliver(m, draws)) && Completes(c, s, m)
    ensures var o := P.ProcessQuorum(c.proposers[m.dst], P.Admit(s.proposers[m.dst], m.src, m.resp), draws);
            Step(c, s, Deliver(m, draws)) == Settle(s, m.dst, o, s.hedge[m.dst])
  {
    hide P.ProcessQuorum;
  }

  lemma {:induction false} SoloCollects(c: Config, s: Sys, a: nat, m: Msg, draws: seq<nat>)
    requires SoloOk(c, s, a) && !s.panicked && Enabled(c, s, Deliver(m, draws)) && m.dst == a
    requires Relevant(c, s, m) && !Completes(c, s, m)
    ensures SoloOk(c, Step(c, s, Deliver(m, draws)), a)
  {
    hide OnlySender, OpeningsOf, LaterIs;
    var o := P.OnResponse(c.proposers[a], s.proposers[a], m.src, m.resp, draws);
    assert o == P.Done(P.Admit(s.proposers[a], m.src, m.resp), [], [], 0);
    Settled(c, s, a, o);
  }

  lemma {:induction false} SoloDeliver(c: Config, s: Sys, h: Histories, a: nat, m: Msg, draws: seq<nat>)
    requires Inv(c, s, h) && SoloOk(c, s, a) && Enabled(c, s, Deliver(m, draws)) && OnlySender(s.net, a)
    ensures SoloOk(c, Step(c, s, Deliver(m, draws)), a)
  {
    hide Inv, SoloOk, Step, OnlySender, Relevant, Completes, Holding, P.Admit, P.ProcessQuorum;
    SoloIndex(c, s, h, a);
    if !Relevant(c, s, m) {
      DeliverIgnored(c, s, m, draws);
    } else {
      RepliesAreMine(c, s, h, a, m);
      if Completes(c, s, m) {
        HoldingArises(c, s, h, m);
        SoloQuorum(c, s, h, a, P.Admit(s.proposers[a], m.src, m.resp), draws);
        DeliverCompletes(c, s, m, draws);
      } else {
        SoloCollects(c, s, a, m, draws);
      }
    }
  }

  lemma {:induction false} SoloHandle(c: Config, s: Sys, a: nat, m: Msg)
    requires SoloOk(c, s, a)
    ensures SoloOk(c, Step(c, s, Handle(m)), a)
  {
    hide Opening;
  }

  /** An action of some other proposer that sends nothing leaves `a` and the network alone. */
  lemma {:induction false} OthersAreSilent(c: Config, s: Sys, a: nat, act: Action, b: nat)
    requires Shaped(c, s) && a < |c.proposers| && a != b
    requires act.Kick? || act.HedgeFires? || act.RetryFires?
    requires act.a == b && OnlySender(Step(c, s, act).net, a)
    ensures Step(c, s, act).net == s.net && Step(c, s, act).proposers[a] == s.proposers[a]
  {
    hide P.OnTimer, P.OnRetry;
    var s' := Step(c, s, act);
    assert s.net <= s'.net;
    forall m | m in s'.net ensures m in s.net || (m.Req? && m.src == b) {
    }
  }

  lemma {:induction false} SoloOther(c: Config, s: Sys, a: nat, act: Action, b: nat)
    requires SoloOk(c, s, a) && a != b
    requires act.Kick? || act.HedgeFires? || act.RetryFires?
    requires act.a == b && OnlySender(Step(c, s, act).net, a)
    ensures SoloOk(c, Step(c, s, act), a)
  {
    OthersAreSilent(c, s, a, act, b);
    StepShape(c, s, act);
    hide Step, OnlySender, OpeningsOf, Standing;
  }

  lemma {:induction false} StepShape(c: Config, s: Sys, act: Action)
    requires Shaped(c, s)
    ensures Shaped(c, Step(c, s, act))
  {
  }

  lemma {:induction false} SoloKick(c: Config, s: Sys, h: Histories, a: nat, draws: seq<nat>)
    requires Inv(c, s, h) && SoloOk(c, s, a) && Enabled(c, s, Kick(a, draws))
    requires StartedOnce(Step(c, s, Kick(a, draws)))
    ensures SoloOk(c, Step(c, s, Kick(a, draws)), a)
  {
    SoloIndex(c, s, h, a);
    if s.proposers[a].decided.Some? {
      DecidedIgnoresKick(c, s, a, draws);
    } else {
      KickedFirst(c, s, a, draws);
      SoloFirstKick(c, s, h, a, draws);
    }
  }

  lemma {:induction false} SoloFirstKick(c: Config, s: Sys, h: Histories, a: nat, draws: seq<nat>)
    requires Inv(c, s, h) && SoloOk(c, s, a) && Enabled(c, s, Kick(a, draws)) && s.kicks[a] == 0
    ensures SoloOk(c, Step(c, s, Kick(a, draws)), a)
  {
    assert ProposerOk(c, h, s.net, a, s.proposers[a], s.hedge[a], s.kicks[a]);
    InvShape(c, s, h);
    hide Inv, OnlySender, OpeningsOf, LaterIs, P.PreparedMap, P.PreparedSends;
    var pc, st := c.proposers[a], s.proposers[a];
    if pc.activationDelay == 0 {
      NothingLater(c, s, h, a, st.proposal);
      SoloBegins(c, s, Step(c, s, Kick(a, draws)), a, st.(step := P.FIRST_ROUND_STEP), draws);
    } else {
      assert Requests(a, []) == {};
    }
  }

  lemma {:induction false} SoloHedge(c: Config, s: Sys, h: Histories, a: nat, local: Option<nat>, draws: seq<nat>)
    requires Inv(c, s, h) && SoloOk(c, s, a) && Enabled(c, s, HedgeFires(a, local, draws))
    ensures SoloOk(c, Step(c, s, HedgeFires(a, local, draws)), a)
  {
    assert ProposerOk(c, h, s.net, a, s.proposers[a], s.hedge[a], s.kicks[a]);
    InvShape(c, s, h);
    hide Inv, OnlySender, OpeningsOf, LaterIs, P.PreparedMap, P.PreparedSends;
    var st := s.proposers[a];
    if P.FreshProgress(st, local) {
      assert Requests(a, []) == {};
    } else {
      NothingLater(c, s, h, a, st.proposal);
      SoloBegins(c, s, Step(c, s, HedgeFires(a, local, draws)), a, st, draws);
    }
  }

  lemma {:induction false} SoloRetry(c: Config, s: Sys, h: Histories, a: nat, step: nat)
    requires Inv(c, s, h) && SoloOk(c, s, a) && Enabled(c, s, RetryFires(a, step))
    ensures SoloOk(c, Step(c, s, RetryFires(a, step)), a)
  {
    assert ProposerOk(c, h, s.net, a, s.proposers[a], s.hedge[a], s.kicks[a]);
    InvShape(c, s, h);
    hide Inv, OnlySender, OpeningsOf, LaterIs, P.OnRetry;
    RetryRepeats(c, s.net, a, s.proposers[a], step);
    assert Step(c, s, RetryFires(a, step)).net == s.net;
  }

  lemma {:induction false} SoloTimers(c: Config, s: Sys, h: Histories, a: nat, act: Action)
    requires Inv(c, s, h) && SoloOk(c, s, a) && StartedOnce(Step(c, s, act)) && OnlySender(Step(c, s, act).net, a)
    requires act.Kick? || act.HedgeFires? || act.RetryFires?
    ensures SoloOk(c, Step(c, s, act), a)
  {
    hide Inv, SoloOk, Step, StartedOnce, OnlySender;
    SoloIndex(c, s, h, a);
    if act.a != a {
      SoloOther(c, s, a, act, act.a);
    } else if !Enabled(c, s, act) {
      DisabledChangesNothing(c, s, act);
    } else {
      match act
      case Kick(_, draws) => SoloKick(c, s, h, a, draws);
      case HedgeFires(_, local, draws) => SoloHedge(c, s, h, a, local, draws);
      case RetryFires(_, step) => SoloRetry(c, s, h, a, step);
    }
  }

  lemma {:induction false} SoloStep(c: Config, s: Sys, h: Histories, a: nat, act: Action)
    requires Inv(c, s, h) && SoloOk(c, s, a) && StartedOnce(Step(c, s, act))
    requires OnlySender(s.net, a) && OnlySender(Step(c, s, act).net, a)
    ensures SoloOk(c, Step(c, s, act), a)
  {
    hide Inv, SoloOk, Step, StartedOnce, OnlySender;
    SoloIndex(c, s, h, a);
    match act
    case Handle(m) => SoloHandle(c, s, a, m);
    case Deliver(m, draws) =>
      if Enabled(c, s, act) {
        SoloDeliver(c, s, h, a, m, draws);
      } else {
        DisabledChangesNothing(c, s, act);
      }
    case Kick(_, _) => SoloTimers(c, s, h, a, act);
    case HedgeFires(_, _, _) => SoloTimers(c, s, h, a, act);
    case RetryFires(_, _) => SoloTimers(c, s, h, a, act);
  }

  lemma {:induction false} NetGrows(c: Config, s: Sys, act: Action)
    requires Shaped(c, s)
    ensures s.net <= Step(c, s, act).net
  {
    hide P.OnResponse, P.OnTimer, P.OnRetry;
  }

  lemma {:induction false} SoloReachable(c: Config, acts: seq<Action>, a: nat)
    requires WellFormed(c) && a < |c.proposers|
    requires StartedOnce(Exec(c, acts)) && OnlySender(Exec(c, acts).net, a)
    ensures SoloOk(c, Exec(c, acts), a)
  {
    if acts == [] {
    } else {
      hide Inv, SoloOk, Step;
      var before, act := acts[..|acts| - 1], acts[|acts| - 1];
      KicksGrow(c, Exec(c, before), act);
      NetGrows(c, Exec(c, before), act);
      Reachable(c, before);
      SoloReachable(c, before, a);
      SoloStep(c, Exec(c, before), HistoriesOf(c, before), a, act);
    }
  }

  // ---------------------------------------------------------------------------- theorems

  /** If all proposers but one have stayed passive, that one is the only sender. */
  lemma {:induction false} PassiveNeverSent(c: Config, acts: seq<Action>, a: nat)
    requires WellFormed(c) && StartedOnce(Exec(c, acts))
    requires forall b | 0 <= b < |c.proposers| && b != a :: !Exec(c, acts).proposers[b].activated
    ensures OnlySender(Exec(c, acts).net, a)
  {
    hide Exec;
    Reachable(c, acts);
    var s := Exec(c, acts);
    forall m | m in s.net && m.Req? ensures m.src == a {
      assert ReqOk(c, s, m);
    }
  }

  /** The only proposer that ever sends never goes past step 6 and only ever decides its own
      input: at step 4 as the leader, at step 6 otherwise. */
  lemma {:induction false} SoloDecidesOwnInput(c: Config, acts: seq<Action>, a: nat)
    requires WellFormed(c) && a < |c.proposers|
    requires StartedOnce(Exec(c, acts)) && OnlySender(Exec(c, acts).net, a)
    ensures var pc, st := c.proposers[a], Exec(c, acts).proposers[a];
            && st.step <= 6
            && (st.decided.Some? ==> st.decided == Some(pc.initial) && st.step == if pc.IsLeader() then 4 else 6)
  {
    hide Exec;
    SoloReachable(c, acts, a);
    Reachable(c, acts);
    var s, h := Exec(c, acts), HistoriesOf(c, acts);
    assert ProposerOk(c, h, s.net, a, s.proposers[a], s.hedge[a], s.kicks[a]);
  }

  /** Each quorum it completes moves it exactly one step, and the last one decides: the first
      for the leader, the third otherwise. */
  lemma {:induction false} SoloProgress(c: Config, acts: seq<Action>, a: nat, m: Msg, draws: seq<nat>)
    requires WellFormed(c) && a < |c.proposers|
    requires StartedOnce(Exec(c, acts)) && OnlySender(Exec(c, acts).net, a)
    requires Enabled(c, Exec(c, acts), Deliver(m, draws)) && Completes(c, Exec(c, acts), m)
    ensures m.dst == a
    ensures var pc, st, st' := c.proposers[a], Exec(c, acts).proposers[a], Exec(c, acts + [Deliver(m, draws)]).proposers[a];
            if pc.IsLeader() || st.step == 6
            then st'.decided == Some(pc.initial) && st'.step == st.step
            else st'.decided.None? && st'.step == st.step + 1
  {
    var s, h := Exec(c, acts), HistoriesOf(c, acts);
    assert (acts + [Deliver(m, draws)])[..|acts|] == acts;
    SoloReachable(c, acts, a);
    Reachable(c, acts);
    hide Inv, SoloOk, Exec, Holding, P.ProcessQuorum, Completes;
    SoloIndex(c, s, h, a);
    RepliesAreMine(c, s, h, a, m);
    HoldingArises(c, s, h, m);
    SoloQuorum(c, s, h, a, P.Admit(s.proposers[a], m.src, m.resp), draws);
    DeliverCompletes(c, s, m, draws);
  }
}
