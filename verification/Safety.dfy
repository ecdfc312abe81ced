/** Safety of the concrete protocol, for every membership, every set of once-started
    proposers and every schedule. */
module Safety {
  import opened Proposals
  import opened Recorders
  import opened Quorums
  import opened Concrete
  import opened Facts
  import opened Invariant
  import opened Preservation
  import Isr
  import P = Proposer

  // -------------------------------------------------------------------------- agreement

  /** A decision at step `s` fixes what every later round ever sends. */
  lemma {:induction false} WarrantDominates(c: Config, h: Histories, net: set<Msg>, s: nat, v: int, t: nat, q: Proposal)
    requires |h| == c.n && AllJustified(c, h, net) && RecordedWasSent(c.n, h, net) && Uncontested(c)
    requires Warranted(c, h, net, s, v) && t / 4 > s / 4 && SentAt(net, t, q)
    ensures q.value == v
  {
    if p :| Chosen(c.n, h, net, s, p) && p.value == v {
      ChoiceDominates(c, h, net, s, p, t);
    } else {
      var p :| FastChosen(c.n, h, p) && SentAt(net, 4, p) && p.value == v;
      FastDominates(c, h, net, p, t);
    }
  }

  lemma {:induction false} ChosenSameStep(c: Config, h: Histories, net: set<Msg>, s: nat, p: Proposal, q: Proposal)
    requires |h| == c.n && AllJustified(c, h, net)
    requires Chosen(c.n, h, net, s, p) && Chosen(c.n, h, net, s, q)
    ensures p == q
  {
    ChosenIsTop(c, h, net, s, p, q);
    ChosenIsTop(c, h, net, s, q, p);
  }

  lemma {:induction false} FastSame(n: nat, h: Histories, p: Proposal, q: Proposal)
    requires |h| == n && FastChosen(n, h, p) && FastChosen(n, h, q)
    ensures p == q
  {
    var m :| FastBy(n, h, p, m);
    var k :| FastBy(n, h, q, k);
    var r := Intersect(n, m, k);
    assert FirstIs(h[r], 4, p) && FirstIs(h[r], 4, q);
  }

  /** A fast-path choice and a phase-2 choice name the same value. */
  lemma {:induction false} FastMeetsChosen(c: Config, h: Histories, net: set<Msg>, p: Proposal, s: nat, q: Proposal)
    requires |h| == c.n && AllJustified(c, h, net) && RecordedWasSent(c.n, h, net) && Uncontested(c)
    requires FastChosen(c.n, h, p) && Chosen(c.n, h, net, s, q)
    ensures p.value == q.value
  {
    SentWasSpread(c, h, net, s, q);
    FastDominates(c, h, net, p, s);
  }

  lemma {:induction false} ChosenMeetsChosen(c: Config, h: Histories, net: set<Msg>, s: nat, p: Proposal, t: nat, q: Proposal)
    requires |h| == c.n && AllJustified(c, h, net) && RecordedWasSent(c.n, h, net)
    requires Chosen(c.n, h, net, s, p) && Chosen(c.n, h, net, t, q) && s <= t
    ensures p.value == q.value
  {
    if s == t {
      ChosenSameStep(c, h, net, s, p, q);
    } else {
      assert t >= s + 2 && SentAt(net, t, q);
      ChoiceDominates(c, h, net, s, p, t);
    }
  }

  /** The proposal behind a warranted decision, and whether the fast path chose it. */
  lemma {:induction false} WarrantOf(c: Config, h: Histories, net: set<Msg>, s: nat, v: int) returns (p: Proposal, fast: bool)
    requires |h| == c.n && Warranted(c, h, net, s, v)
    ensures p.value == v && if fast then FastChosen(c.n, h, p) else Chosen(c.n, h, net, s, p)
  {
    if q :| Chosen(c.n, h, net, s, q) && q.value == v {
      p, fast := q, false;
    } else {
      p :| FastChosen(c.n, h, p) && SentAt(net, 4, p) && p.value == v;
      fast := true;
    }
  }

  lemma {:induction false} WarrantsAgree(c: Config, h: Histories, net: set<Msg>, s: nat, v: int, t: nat, w: int)
    requires |h| == c.n && AllJustified(c, h, net) && RecordedWasSent(c.n, h, net) && Uncontested(c)
    requires Warranted(c, h, net, s, v) && Warranted(c, h, net, t, w) && s <= t
    ensures v == w
  {
    hide Warranted, FastChosen, Chosen, AllJustified, RecordedWasSent;
    var p, fastP := WarrantOf(c, h, net, s, v);
    var q, fastQ := WarrantOf(c, h, net, t, w);
    if fastP && fastQ {
      FastSame(c.n, h, p, q);
    } else if fastP {
      FastMeetsChosen(c, h, net, p, t, q);
    } else if fastQ {
      FastMeetsChosen(c, h, net, q, s, p);
    } else {
      ChosenMeetsChosen(c, h, net, s, p, t, q);
    }
  }

  lemma {:induction false} DecidedIsWarranted(c: Config, s: Sys, h: Histories, a: nat)
    requires Inv(c, s, h) && a < |s.proposers| && s.proposers[a].decided.Some?
    ensures Warranted(c, h, s.net, s.proposers[a].step, s.proposers[a].decided.value)
  {
    assert ProposerOk(c, h, s.net, a, s.proposers[a], s.hedge[a], s.kicks[a]);
  }

  /** Agreement: in every reachable state no two proposers hold different decisions. */
  lemma {:induction false} AgreementHolds(c: Config, acts: seq<Action>)
    requires WellFormed(c) && Uncontested(c) && StartedOnce(Exec(c, acts))
    ensures Agreement(Exec(c, acts))
  {
    var s, h := Exec(c, acts), HistoriesOf(c, acts);
    Reachable(c, acts);
    forall a, b | 0 <= a < |s.proposers| && 0 <= b < |s.proposers|
                  && s.proposers[a].decided.Some? && s.proposers[b].decided.Some?
      ensures s.proposers[a].decided == s.proposers[b].decided
    {
      DecidedIsWarranted(c, s, h, a);
      DecidedIsWarranted(c, s, h, b);
      var sa, sb := s.proposers[a].step, s.proposers[b].step;
      var va, vb := s.proposers[a].decided.value, s.proposers[b].decided.value;
      if sa <= sb {
        WarrantsAgree(c, h, s.net, sa, va, sb, vb);
      } else {
        WarrantsAgree(c, h, s.net, sb, vb, sa, va);
      }
    }
  }

  /** Decision dominance: once a proposer has decided in one round, every proposal ever sent
      in a later round, before or after that decision, carries the decided value. */
  lemma {:induction false} DecisionDominates(c: Config, acts: seq<Action>, a: nat, m: Msg)
    requires WellFormed(c) && Uncontested(c) && StartedOnce(Exec(c, acts))
    requires var s := Exec(c, acts);
             && a < |s.proposers| && s.proposers[a].decided.Some?
             && m in s.net && m.Req? && m.req.reqStep / 4 > s.proposers[a].step / 4
    ensures Some(m.req.proposal.value) == Exec(c, acts).proposers[a].decided
  {
    var s, h := Exec(c, acts), HistoriesOf(c, acts);
    Reachable(c, acts);
    DecidedIsWarranted(c, s, h, a);
    assert SentAt(s.net, m.req.reqStep, m.req.proposal);
    WarrantDominates(c, h, s.net, s.proposers[a].step, s.proposers[a].decided.value, m.req.reqStep, m.req.proposal);
  }

  /** No `expect` on the proposer's paths can ever fail. */
  lemma {:induction false} NeverPanics(c: Config, acts: seq<Action>)
    requires WellFormed(c) && StartedOnce(Exec(c, acts))
    ensures !Exec(c, acts).panicked
  {
    Reachable(c, acts);
  }

  /** Spread and gather: whatever is sent in phase 2 or 3 was folded in one step earlier by a
      majority, so any majority that replies at that step reports something at least as good. */
  lemma {:induction false} SpreadIsGathered(c: Config, acts: seq<Action>, m: Msg, quorum: map<nat, Response>)
    requires WellFormed(c) && StartedOnce(Exec(c, acts))
    requires m in Exec(c, acts).net && m.Req? && (m.req.reqStep % 4 == 2 || m.req.reqStep % 4 == 3)
    requires IsQuorum(c.n, quorum.Keys)
    requires forall r | r in quorum ::
               quorum[r].step == m.req.reqStep && exists b :: Resp(r, b, quorum[r]) in Exec(c, acts).net
    ensures exists r :: r in quorum && quorum[r].priorAgg.Some? && Le(m.req.proposal, quorum[r].priorAgg.value)
  {
    var s, h := Exec(c, acts), HistoriesOf(c, acts);
    Reachable(c, acts);
    var t, q := m.req.reqStep, m.req.proposal;
    assert SentAt(s.net, t, q);
    SentWasSpread(c, h, s.net, t, q);
    var k :| SpreadBy(c.n, h, t - 1, q, k);
    var r := Intersect(c.n, quorum.Keys, k);
    assert Folded(h[r], t - 1, q);
    var b :| Resp(r, b, quorum[r]) in s.net;
    assert RespOk(c, h, s.net, Resp(r, b, quorum[r]));
  }

  // ------------------------------------------------------------------------ the fast path

  /** Only openings carry the reserved priority, and only in the first round. */
  lemma {:induction false} TopIsOpening(c: Config, h: Histories, net: set<Msg>, t: nat, q: Proposal)
    requires |h| == c.n && AllJustified(c, h, net) && RecordedWasSent(c.n, h, net)
    requires SentAt(net, t, q) && q.priority == H
    ensures 4 <= t < 8 && exists a :: Opening(c, a, q) && c.proposers[a].IsLeader()
    decreases t
  {
    assert Justified(c, h, net, t, q);
    if t == 4 {
      var a :| Opening(c, a, q);
      assert c.proposers[a].IsLeader();
    } else if t % 4 != 0 {
      if t % 4 == 1 {
        FirstBestWasSent(c, h, net, t - 1, q);
      }
      TopIsOpening(c, h, net, t - 1, q);
    }
  }

  // ------------------------------------------------- what messages and recorders hold

  ghost predicate MessageHolds(m: Msg, q: Proposal) {
    match m
    case Req(_, _, req) => req.proposal == q
    case Resp(_, _, resp) => resp.first == Some(q) || resp.priorAgg == Some(q)
  }

  ghost predicate RegisterHolds(i: Isr.Register, q: Proposal) {
    i.first == Some(q) || i.currentAgg == Some(q) || i.priorAgg == Some(q)
  }

  /** `q` is in some message or in some recorder's register. */
  ghost predicate Held(s: Sys, q: Proposal) {
    || (exists m :: m in s.net && MessageHolds(m, q))
    || (exists r :: 0 <= r < |s.recorders| && RegisterHolds(s.recorders[r], q))
  }

  lemma {:induction false} MessageWasSent(c: Config, s: Sys, h: Histories, m: Msg, q: Proposal) returns (t: nat)
    requires Inv(c, s, h) && m in s.net && MessageHolds(m, q)
    ensures SentAt(s.net, t, q)
  {
    hide AllJustified, Asked;
    match m
    case Req(_, _, req) => t := req.reqStep;
    case Resp(r, _, resp) =>
      assert RespOk(c, h, s.net, m);
      assert WasSent(h[r], s.net);
      t := if resp.first == Some(q) then resp.step else resp.step - 1;
  }

  lemma {:induction false} RegisterWasSent(c: Config, s: Sys, h: Histories, r: nat, q: Proposal) returns (t: nat)
    requires Inv(c, s, h) && r < |s.recorders| && RegisterHolds(s.recorders[r], q)
    ensures SentAt(s.net, t, q)
  {
    hide AllJustified, RepliesOk, ProposersOk;
    var i := s.recorders[r];
    assert Isr.Represents(i, h[r]) && WasSent(h[r], s.net);
    t := if i.first == Some(q) || i.currentAgg == Some(q) then i.step else i.step - 1;
  }

  /** Whatever a message or a register holds was sent in some request. */
  lemma {:induction false} HeldWasSent(c: Config, s: Sys, h: Histories, q: Proposal) returns (t: nat)
    requires Inv(c, s, h) && Held(s, q)
    ensures SentAt(s.net, t, q)
  {
    hide Inv, MessageHolds, RegisterHolds, SentAt;
    if m :| m in s.net && MessageHolds(m, q) {
      t := MessageWasSent(c, s, h, m, q);
    } else {
      var r :| 0 <= r < |s.recorders| && RegisterHolds(s.recorders[r], q);
      t := RegisterWasSent(c, s, h, r, q);
    }
  }

  /** Every proposal at the reserved priority, in any request, reply or register, is the
      opening proposal of a leader. */
  lemma {:induction false} TopIsLeaders(c: Config, acts: seq<Action>, q: Proposal)
    requires WellFormed(c) && StartedOnce(Exec(c, acts)) && Held(Exec(c, acts), q) && q.priority == H
    ensures exists a :: Opening(c, a, q) && c.proposers[a].IsLeader()
  {
    hide Inv, Exec, Held, SentAt;
    var s, h := Exec(c, acts), HistoriesOf(c, acts);
    Reachable(c, acts);
    InvFacts(c, s, h);
    var t := HeldWasSent(c, s, h, q);
    TopIsOpening(c, h, s.net, t, q);
  }

  lemma {:induction false} InvFacts(c: Config, s: Sys, h: Histories)
    requires Inv(c, s, h)
    ensures |h| == c.n && AllJustified(c, h, s.net) && RecordedWasSent(c.n, h, s.net)
  {
  }

  lemma {:induction false} UniformRepliesAreFast(c: Config, s: Sys, h: Histories, quorum: map<nat, Response>, p: Proposal)
    requires Inv(c, s, h) && IsQuorum(c.n, quorum.Keys) && P.UniformH(quorum, p)
    requires FirstStepReplies(s.net, quorum)
    ensures FastChosen(c.n, h, p)
  {
    forall r | r in quorum.Keys ensures FirstIs(h[r], 4, p) {
      var b :| Resp(r, b, quorum[r]) in s.net;
      assert RespOk(c, h, s.net, Resp(r, b, quorum[r]));
    }
    assert FastBy(c.n, h, p, quorum.Keys);
  }

  /** Every reply in `quorum` reports the first step and was really sent. */
  ghost predicate FirstStepReplies(net: set<Msg>, quorum: map<nat, Response>) {
    forall r | r in quorum :: quorum[r].step == 4 && exists b :: Resp(r, b, quorum[r]) in net
  }

  lemma {:induction false} FastRepliesChoose(c: Config, s: Sys, h: Histories, quorum: map<nat, Response>, v: int) returns (p: Proposal)
    requires Inv(c, s, h) && IsQuorum(c.n, quorum.Keys)
    requires FirstStepReplies(s.net, quorum) && P.FastPathValue(quorum) == Some(v)
    ensures FastChosen(c.n, h, p) && p.value == v
  {
    p :| P.UniformH(quorum, p);
    hide P.FastPathValue;
    UniformRepliesAreFast(c, s, h, quorum, p);
  }

  /** Even with several proposals at the reserved priority, two majorities of replies to the
      first step never satisfy the fast-path test for different values. */
  lemma {:induction false} FastDecisionsNeverDisagree(
    c: Config, acts: seq<Action>, quorum: map<nat, Response>, v: int, quorum': map<nat, Response>, v': int)
    requires WellFormed(c) && StartedOnce(Exec(c, acts))
    requires IsQuorum(c.n, quorum.Keys) && FirstStepReplies(Exec(c, acts).net, quorum) && P.FastPathValue(quorum) == Some(v)
    requires IsQuorum(c.n, quorum'.Keys) && FirstStepReplies(Exec(c, acts).net, quorum') && P.FastPathValue(quorum') == Some(v')
    ensures v == v'
  {
    hide Inv, Exec, P.FastPathValue, FirstStepReplies, FastChosen;
    var s, h := Exec(c, acts), HistoriesOf(c, acts);
    Reachable(c, acts);
    InvShape(c, s, h);
    var p := FastRepliesChoose(c, s, h, quorum, v);
    var q := FastRepliesChoose(c, s, h, quorum', v');
    FastSame(c.n, h, p, q);
  }

  /** The fast path and the slow path agree: once some majority of replies to the first step
      satisfies the fast-path test, every proposal ever sent past that step carries its value. */
  lemma {:induction false} FastPathFixesTheSlot(c: Config, acts: seq<Action>, quorum: map<nat, Response>, v: int, m: Msg)
    requires WellFormed(c) && Uncontested(c) && StartedOnce(Exec(c, acts))
    requires IsQuorum(c.n, quorum.Keys)
    requires FirstStepReplies(Exec(c, acts).net, quorum) && P.FastPathValue(quorum) == Some(v)
    requires m in Exec(c, acts).net && m.Req? && m.req.reqStep > 4
    ensures m.req.proposal.value == v
  {
    hide Inv, AllJustified, RecordedWasSent, Exec, P.FastPathValue, FirstStepReplies;
    var s, h := Exec(c, acts), HistoriesOf(c, acts);
    Reachable(c, acts);
    InvFacts(c, s, h);
    var p := FastRepliesChoose(c, s, h, quorum, v);
    assert SentAt(s.net, m.req.reqStep, m.req.proposal);
    FastDominates(c, h, s.net, p, m.req.reqStep);
  }

  // --------------------------------------------------------------- validity and integrity

  ghost function Inputs(c: Config): iset<int> {
    iset a | 0 <= a < |c.proposers| :: c.proposers[a].initial
  }

  lemma {:induction false} SentIsInput(c: Config, h: Histories, net: set<Msg>, t: nat, q: Proposal)
    requires |h| == c.n && AllJustified(c, h, net) && RecordedWasSent(c.n, h, net) && SentAt(net, t, q)
    ensures q.value in Inputs(c)
  {
    assert Justified(c, h, net, t, q);
    forall o | SentAt(net, 4, o) ensures o.value in Inputs(c) {
      assert Justified(c, h, net, 4, o);
      var a :| Opening(c, a, o);
    }
    ValuesPersist(c, h, net, 4, Inputs(c), t);
  }

  lemma {:induction false} HeldIsInput(c: Config, s: Sys, h: Histories, q: Proposal)
    requires Inv(c, s, h) && Held(s, q)
    ensures q.value in Inputs(c)
  {
    hide Inv, Held, SentAt;
    InvFacts(c, s, h);
    var t := HeldWasSent(c, s, h, q);
    SentIsInput(c, h, s.net, t, q);
  }

  lemma {:induction false} DecisionIsInput(c: Config, s: Sys, h: Histories, a: nat)
    requires Inv(c, s, h) && a < |s.proposers| && s.proposers[a].decided.Some?
    ensures s.proposers[a].decided.value in Inputs(c)
  {
    DecidedIsWarranted(c, s, h, a);
    InvFacts(c, s, h);
    hide Inv, AllJustified, RecordedWasSent;
    var v := s.proposers[a].decided.value;
    if p :| Chosen(c.n, h, s.net, s.proposers[a].step, p) && p.value == v {
      SentIsInput(c, h, s.net, s.proposers[a].step, p);
    } else {
      var p :| FastChosen(c.n, h, p) && SentAt(s.net, 4, p) && p.value == v;
      SentIsInput(c, h, s.net, 4, p);
    }
  }

  // ------------------------------------------------------------ what proposers hold

  ghost predicate ReplyNames(resp: Response, q: Proposal) {
    resp.first == Some(q) || resp.priorAgg == Some(q)
  }

  /** Processing a quorum keeps the template or takes one that some reply names. */
  lemma {:induction false} QuorumTemplate(pc: P.Config, st: P.State, draws: seq<nat>)
    requires |draws| == pc.n && P.ProcessQuorum(pc, st, draws).Done?
    ensures var q := P.ProcessQuorum(pc, st, draws).st.proposal;
            q == st.proposal || exists r :: r in st.responses && ReplyNames(st.responses[r], q)
  {
    hide Le, P.FastPathValue, P.PreparedMap, P.PreparedSends;
    if P.AllAtStep(st) {
      PhaseTemplate(st);
    } else {
      var k := P.FurthestReply(st.responses);
      assert ReplyNames(st.responses[k], st.responses[k].first.value);
    }
  }

  lemma {:induction false} PhaseTemplate(st: P.State)
    requires P.ProcessPhase(st).Some?
    ensures var q := P.ProcessPhase(st).value.proposal;
            q == st.proposal || exists r :: r in st.responses && ReplyNames(st.responses[r], q)
  {
    hide Le, P.FastPathValue;
    var q := P.ProcessPhase(st).value.proposal;
    if q != st.proposal {
      if st.step % 4 == 0 {
        assert q in P.Firsts(st.responses);
        var r :| r in st.responses && st.responses[r].first.Some? && st.responses[r].first.value == q;
        assert ReplyNames(st.responses[r], q);
      } else {
        assert q in P.PriorAggs(st.responses);
        var r :| r in st.responses && st.responses[r].priorAgg.Some? && st.responses[r].priorAgg.value == q;
        assert ReplyNames(st.responses[r], q);
      }
    }
  }

  ghost predicate TemplatesOk(c: Config, s: Sys) {
    forall a | 0 <= a < |s.proposers| :: s.proposers[a].proposal.value in Inputs(c)
  }

  lemma {:induction false} DeliverTemplate(c: Config, s: Sys, h: Histories, m: Msg, draws: seq<nat>)
    requires Inv(c, s, h) && Enabled(c, s, Deliver(m, draws)) && TemplatesOk(c, s)
    requires Relevant(c, s, m)
    requires P.OnResponse(c.proposers[m.dst], s.proposers[m.dst], m.src, m.resp, draws).Done?
    ensures P.OnResponse(c.proposers[m.dst], s.proposers[m.dst], m.src, m.resp, draws).st.proposal.value in Inputs(c)
  {
    RepliedIsActive(c, s, h, m);
    AdmitKeepsOutstanding(c, s, h, m);
    hide Inv, P.ProcessQuorum, Inputs, Outstanding;
    var pc, held := c.proposers[m.dst], P.Admit(s.proposers[m.dst], m.src, m.resp);
    if |held.responses| >= pc.Quorum() {
      QuorumTemplate(pc, held, draws);
      var q := P.ProcessQuorum(pc, held, draws).st.proposal;
      if q != held.proposal {
        var r :| r in held.responses && ReplyNames(held.responses[r], q);
        assert MessageHolds(Resp(r, m.dst, held.responses[r]), q);
        HeldIsInput(c, s, h, q);
      }
    }
  }

  lemma {:induction false} TimersKeepTemplate(c: Config, s: Sys, act: Action)
    requires Shaped(c, s) && TemplatesOk(c, s) && !act.Deliver?
    ensures TemplatesOk(c, Step(c, s, act))
  {
    hide Inputs, P.PreparedMap, P.PreparedSends, P.Resends;
  }

  lemma {:induction false} SettledTemplates(c: Config, s: Sys, a: nat, o: P.Outcome, armed: bool)
    requires Shaped(c, s) && TemplatesOk(c, s) && a < |s.proposers|
    requires o.Done? ==> o.st.proposal.value in Inputs(c)
    ensures TemplatesOk(c, Settle(s, a, o, armed))
  {
    hide Inputs;
  }

  lemma {:induction false} DeliverKeepsTemplates(c: Config, s: Sys, h: Histories, m: Msg, draws: seq<nat>)
    requires Inv(c, s, h) && Shaped(c, s) && TemplatesOk(c, s) && Enabled(c, s, Deliver(m, draws))
    ensures TemplatesOk(c, Step(c, s, Deliver(m, draws)))
  {
    hide Inv, Inputs, P.OnResponse, TemplatesOk, Relevant;
    var o := P.OnResponse(c.proposers[m.dst], s.proposers[m.dst], m.src, m.resp, draws);
    if !Relevant(c, s, m) {
      DeliverIgnored(c, s, m, draws);
    } else {
      if o.Done? {
        DeliverTemplate(c, s, h, m, draws);
      }
      SettledTemplates(c, s, m.dst, o, s.hedge[m.dst]);
    }
  }

  lemma {:induction false} StepKeepsTemplates(c: Config, s: Sys, h: Histories, act: Action)
    requires Inv(c, s, h) && TemplatesOk(c, s)
    ensures Shaped(c, s) && TemplatesOk(c, Step(c, s, act))
  {
    hide Inv, Inputs, Step, TemplatesOk;
    InvShape(c, s, h);
    if !act.Deliver? {
      TimersKeepTemplate(c, s, act);
    } else if Enabled(c, s, act) {
      DeliverKeepsTemplates(c, s, h, act.m, act.draws);
    } else {
      DisabledChangesNothing(c, s, act);
    }
  }

  lemma {:induction false} TemplatesAreInputs(c: Config, acts: seq<Action>)
    requires WellFormed(c) && StartedOnce(Exec(c, acts))
    ensures TemplatesOk(c, Exec(c, acts))
  {
    if acts == [] {
      forall a | 0 <= a < |c.proposers| ensures Init(c).proposers[a].proposal.value in Inputs(c) {
        assert Init(c).proposers[a].proposal.value == c.proposers[a].initial;
      }
    } else {
      hide Inv, Step, TemplatesOk;
      var before, act := acts[..|acts| - 1], acts[|acts| - 1];
      KicksGrow(c, Exec(c, before), act);
      Reachable(c, before);
      TemplatesAreInputs(c, before);
      StepKeepsTemplates(c, Exec(c, before), HistoriesOf(c, before), act);
    }
  }

  /** Value `v` is somewhere in a proposer: its template, its decision, what it has sent for
      its step, or a reply it holds. */
  ghost predicate ProposerHolds(st: P.State, v: int) {
    || st.proposal.value == v
    || st.decided == Some(v)
    || (exists r :: r in st.sent && st.sent[r].value == v)
    || (exists r, q :: r in st.responses && ReplyNames(st.responses[r], q) && q.value == v)
  }

  lemma {:induction false} OutstandingIsHeld(c: Config, s: Sys, h: Histories, a: nat)
    requires Inv(c, s, h) && a < |c.proposers|
    ensures Shaped(c, s)
    ensures forall r | r in s.proposers[a].sent :: Held(s, s.proposers[a].sent[r])
    ensures forall r, q | r in s.proposers[a].responses && ReplyNames(s.proposers[a].responses[r], q) :: Held(s, q)
  {
    var st := s.proposers[a];
    assert ProposerOk(c, h, s.net, a, st, s.hedge[a], s.kicks[a]);
    InvShape(c, s, h);
    hide Inv;
    forall r | r in st.sent ensures Held(s, st.sent[r]) {
      assert MessageHolds(Req(a, r, Request(c.slot, st.step, st.sent[r])), st.sent[r]);
    }
    forall r, q | r in st.responses && ReplyNames(st.responses[r], q) ensures Held(s, q) {
      assert MessageHolds(Resp(r, a, st.responses[r]), q);
    }
  }

  lemma {:induction false} ProposerIsValid(c: Config, s: Sys, h: Histories, a: nat, v: int)
    requires Inv(c, s, h) && TemplatesOk(c, s) && a < |c.proposers| && a < |s.proposers| && ProposerHolds(s.proposers[a], v)
    ensures v in Inputs(c)
  {
    hide Inv, Held, Inputs, ReplyNames;
    OutstandingIsHeld(c, s, h, a);
    var st := s.proposers[a];
    if st.decided == Some(v) {
      DecisionIsInput(c, s, h, a);
    } else if r :| r in st.sent && st.sent[r].value == v {
      HeldIsInput(c, s, h, st.sent[r]);
    } else if r, q :| r in st.responses && ReplyNames(st.responses[r], q) && q.value == v {
      HeldIsInput(c, s, h, q);
    }
  }

  /** Validity: every value in any message, recorder or proposer, and so every decision, is
      some proposer's input. */
  lemma {:induction false} Validity(c: Config, acts: seq<Action>)
    requires WellFormed(c) && StartedOnce(Exec(c, acts))
    ensures forall q | Held(Exec(c, acts), q) :: q.value in Inputs(c)
    ensures forall a, v | 0 <= a < |c.proposers| && ProposerHolds(Exec(c, acts).proposers[a], v) :: v in Inputs(c)
  {
    hide Inv, Held, Inputs, Exec, ProposerHolds, TemplatesOk;
    var s, h := Exec(c, acts), HistoriesOf(c, acts);
    Reachable(c, acts);
    TemplatesAreInputs(c, acts);
    forall q | Held(s, q) ensures q.value in Inputs(c) {
      HeldIsInput(c, s, h, q);
    }
    forall a, v | 0 <= a < |c.proposers| && ProposerHolds(s.proposers[a], v) ensures v in Inputs(c) {
      ProposerIsValid(c, s, h, a, v);
    }
  }

  lemma {:induction false} StepKeepsDecisions(c: Config, s: Sys, act: Action, a: nat)
    requires Shaped(c, s) && a < |s.proposers| && s.proposers[a].decided.Some?
    ensures Step(c, s, act).proposers[a].decided == s.proposers[a].decided
  {
  }

  /** A proposer that has decided is finished: replies, retries, hedge checks and further
      kickoffs leave its whole state as it is and make it send nothing. */
  lemma {:induction false} DecidedIsInert(c: Config, s: Sys, act: Action, a: nat)
    requires Shaped(c, s) && a < |s.proposers| && s.proposers[a].decided.Some?
    ensures Step(c, s, act).proposers[a] == s.proposers[a]
    ensures forall m | m in Step(c, s, act).net && m.Req? && m.src == a :: m in s.net
  {
  }

  /** Integrity: whatever happens next, re-kicks included, a decision once made never changes. */
  lemma {:induction false} DecidedForGood(c: Config, acts: seq<Action>, more: seq<Action>, a: nat)
    requires a < |c.proposers| && Exec(c, acts).proposers[a].decided.Some?
    ensures Exec(c, acts + more).proposers[a].decided == Exec(c, acts).proposers[a].decided
    decreases |more|
  {
    if more == [] {
      assert acts + more == acts;
    } else {
      var n := |more| - 1;
      DecidedForGood(c, acts, more[..n], a);
      assert (acts + more)[..|acts + more| - 1] == acts + more[..n];
      StepKeepsDecisions(c, Exec(c, acts + more[..n]), more[n], a);
    }
  }

  // ------------------------------------------------------------------ majorities and wiring

  /** The schedule only ever lets recorders of `live` handle anything. */
  ghost predicate OnlyLiveHandle(acts: seq<Action>, live: set<nat>) {
    forall k | 0 <= k < |acts| && acts[k].Handle? :: acts[k].m.dst in live
  }

  lemma {:induction false} SilentHistory(c: Config, acts: seq<Action>, live: set<nat>, r: nat)
    requires OnlyLiveHandle(acts, live) && r < c.n && r !in live
    ensures |HistoriesOf(c, acts)| == c.n && HistoriesOf(c, acts)[r] == Isr.NO_HISTORY
  {
    if acts == [] {
    } else {
      var before := acts[..|acts| - 1];
      forall k | 0 <= k < |before| && before[k].Handle? ensures before[k].m.dst in live {
        assert acts[k] == before[k];
      }
      SilentHistory(c, before, live, r);
    }
  }

  lemma {:induction false} WarrantNeedsMajority(c: Config, h: Histories, net: set<Msg>, s: nat, v: int) returns (quorum: set<nat>)
    requires |h| == c.n && Warranted(c, h, net, s, v)
    ensures IsQuorum(c.n, quorum) && forall r | r in quorum :: h[r] != Isr.NO_HISTORY
  {
    hide SentAt, Le;
    var p, fast := WarrantOf(c, h, net, s, v);
    if fast {
      quorum :| FastBy(c.n, h, p, quorum);
      assert forall r | r in quorum :: FirstIs(h[r], 4, p);
    } else {
      quorum :| ChosenBy(c.n, h, s, p, quorum);
      assert forall r | r in quorum :: Folded(h[r], s, p);
    }
  }

  /** Without a live majority of recorders no proposer ever decides. */
  lemma {:induction false} NoMajorityNoDecision(c: Config, acts: seq<Action>, live: set<nat>, a: nat)
    requires WellFormed(c) && StartedOnce(Exec(c, acts)) && a < |Exec(c, acts).proposers|
    requires OnlyLiveHandle(acts, live) && |live| < c.n / 2 + 1
    ensures Exec(c, acts).proposers[a].decided.None?
  {
    hide Inv, Warranted;
    var s, h := Exec(c, acts), HistoriesOf(c, acts);
    Reachable(c, acts);
    if s.proposers[a].decided.Some? {
      InvFacts(c, s, h);
      DecidedIsWarranted(c, s, h, a);
      var quorum := WarrantNeedsMajority(c, h, s.net, s.proposers[a].step, s.proposers[a].decided.value);
      forall r | r in quorum ensures r in live {
        if r !in live {
          SilentHistory(c, acts, live, r);
        }
      }
      SubsetCardinality(quorum, live);
      assert false;
    }
  }

  /** A cluster as it is built: one proposer beside each recorder, one leader or none, and an
      activation delay for each. */
  function Built(initial: seq<int>, leader: Option<nat>, delays: seq<nat>): Config
    requires |delays| == |initial|
  {
    Config(|initial|, 0,
           seq(|initial|, a requires 0 <= a < |initial| => P.Config(a, |initial|, initial[a], leader, 0, delays[a])))
  }

  /** So for a cluster as built, of any size, with any leader and any delays, every schedule
      that starts each proposer once is safe. */
  lemma {:induction false} BuiltClustersAreSafe(initial: seq<int>, leader: Option<nat>, delays: seq<nat>, acts: seq<Action>)
    requires |delays| == |initial| && StartedOnce(Exec(Built(initial, leader, delays), acts))
    ensures var s := Exec(Built(initial, leader, delays), acts);
            && Agreement(s) && !s.panicked
            && forall a | 0 <= a < |s.proposers| && s.proposers[a].decided.Some? :: s.proposers[a].decided.value in initial
  {
    hide Exec;
    var c := Built(initial, leader, delays);
    AgreementHolds(c, acts);
    NeverPanics(c, acts);
    Validity(c, acts);
    forall v | v in Inputs(c) ensures v in initial {
      var a :| 0 <= a < |c.proposers| && c.proposers[a].initial == v;
      assert initial[a] == v;
    }
    forall a | 0 <= a < |c.proposers| && Exec(c, acts).proposers[a].decided.Some?
      ensures Exec(c, acts).proposers[a].decided.value in initial
    {
      assert ProposerHolds(Exec(c, acts).proposers[a], Exec(c, acts).proposers[a].decided.value);
    }
  }
}
