/** The inductive invariant of the slot, and its preservation by every action. */
module Invariant {
  import opened Proposals
  import opened Recorders
  import opened Concrete
  import opened Facts
  import Isr
  import P = Proposer

  /** The recorders' full histories along a schedule. */
  function Record(c: Config, s: Sys, h: Histories, act: Action): Histories {
    if !s.panicked && Enabled(c, s, act) && act.Handle? && act.m.dst < |h|
    then h[act.m.dst := Isr.Remember(h[act.m.dst], act.m.req.reqStep, act.m.req.proposal)]
    else h
  }

  function HistoriesOf(c: Config, acts: seq<Action>): Histories {
    if acts == [] then seq(c.n, _ => Isr.NO_HISTORY)
    else
      var before := acts[..|acts| - 1];
      Record(c, Exec(c, before), HistoriesOf(c, before), acts[|acts| - 1])
  }

  // ---------------------------------------------------------------------- the invariant

  ghost predicate ReqOk(c: Config, s: Sys, m: Msg)
    requires m.Req? && Shaped(c, s)
  {
    && m.dst < c.n && m.src < |c.proposers| && m.req.slot == c.slot
    && var st := s.proposers[m.src];
    && st.activated && m.req.reqStep <= st.step
    && (m.req.reqStep == st.step ==> m.dst in st.sent && st.sent[m.dst] == m.req.proposal)
  }

  ghost predicate Asked(c: Config, hr: Isr.History, net: set<Msg>, m: Msg, q: Proposal)
    requires m.Resp?
  {
    && Req(m.dst, m.src, Request(c.slot, m.resp.reqStep, q)) in net
    && (m.resp.step == m.resp.reqStep ==> Folded(hr, m.resp.step, q))
  }

  /** A reply tells the truth about its recorder, then and ever after. */
  ghost predicate Truthful(hr: Isr.History, resp: Response) {
    && resp.step > 0 && resp.reqStep <= resp.step
    && resp.step in hr.first && resp.first == Some(hr.first[resp.step])
    && resp.priorAgg == Isr.Lookup(hr.agg, resp.step - 1)
  }

  ghost predicate RespOk(c: Config, h: Histories, net: set<Msg>, m: Msg)
    requires m.Resp? && |h| == c.n
  {
    && m.src < c.n && m.dst < |c.proposers| && m.resp.slot == c.slot
    && Truthful(h[m.src], m.resp)
    && exists q :: Asked(c, h[m.src], net, m, q)
  }

  ghost predicate Outstanding(c: Config, net: set<Msg>, a: nat, st: P.State) {
    && st.step >= 4
    && (forall r: nat :: r in st.sent <==> r < c.n)
    && (forall r: nat | r in st.sent :: Req(a, r, Request(c.slot, st.step, st.sent[r])) in net)
    && (st.step % 4 != 0 ==> forall r | r in st.sent :: st.sent[r] == st.proposal)
    && (forall r: nat | r in st.responses ::
          Resp(r, a, st.responses[r]) in net && st.responses[r].reqStep == st.step)
  }

  /** A value decided at step `s` is that of a proposal chosen there, in phase 2 or on the
      fast path. */
  ghost predicate Warranted(c: Config, h: Histories, net: set<Msg>, s: nat, v: int)
    requires |h| == c.n
  {
    || (exists p :: Chosen(c.n, h, net, s, p) && p.value == v)
    || (s == 4 && exists p :: FastChosen(c.n, h, p) && SentAt(net, 4, p) && p.value == v)
  }

  ghost predicate ProposerOk(c: Config, h: Histories, net: set<Msg>, a: nat, st: P.State, hedge: bool, kicks: nat)
    requires a < |c.proposers| && |h| == c.n
  {
    && (kicks == 0 ==> st == P.Fresh(c.proposers[a]) && !hedge)
    && (hedge ==> !st.activated)
    && (!st.activated && kicks > 0 ==>
          st == P.Fresh(c.proposers[a]).(step := 4, lastSeen := st.lastSeen))
    && (st.activated ==> Outstanding(c, net, a, st))
    && (st.decided.Some? ==> Warranted(c, h, net, st.step, st.decided.value))
  }

  ghost predicate RecordersOk(n: nat, recorders: seq<Isr.Register>, h: Histories) {
    |recorders| == |h| == n && HistoriesOk(n, h)
    && forall r | 0 <= r < n :: Isr.Represents(recorders[r], h[r])
  }

  ghost predicate RequestsOk(c: Config, s: Sys)
    requires Shaped(c, s)
  {
    forall m | m in s.net && m.Req? :: ReqOk(c, s, m)
  }

  ghost predicate RepliesOk(c: Config, h: Histories, net: set<Msg>)
    requires |h| == c.n
  {
    forall m | m in net && m.Resp? :: RespOk(c, h, net, m)
  }

  ghost predicate ProposersOk(c: Config, s: Sys, h: Histories)
    requires Shaped(c, s) && |h| == c.n
  {
    forall a | 0 <= a < |c.proposers| ::
      ProposerOk(c, h, s.net, a, s.proposers[a], s.hedge[a], s.kicks[a])
  }

  ghost predicate Inv(c: Config, s: Sys, h: Histories) {
    && WellFormed(c) && Shaped(c, s) && !s.panicked
    && RecordersOk(c.n, s.recorders, h)
    && RecordedWasSent(c.n, h, s.net)
    && AllJustified(c, h, s.net)
    && RequestsOk(c, s)
    && RepliesOk(c, h, s.net)
    && ProposersOk(c, s, h)
  }

  lemma {:induction false} InvInit(c: Config)
    requires WellFormed(c)
    ensures Inv(c, Init(c), HistoriesOf(c, []))
  {
  }

  // -------------------------------------------------------------------------- stability

  lemma {:induction false} RespStable(c: Config, h: Histories, h': Histories, net: set<Msg>, net': set<Msg>, m: Msg)
    requires HistoriesExtend(c.n, h, h') && net <= net' && m.Resp? && RespOk(c, h, net, m)
    ensures RespOk(c, h', net', m)
  {
    var q :| Asked(c, h[m.src], net, m, q);
    OneStable(h[m.src], h'[m.src], m.resp.step, q);
    assert m.resp.step <= h[m.src].step;
    assert Asked(c, h'[m.src], net', m, q);
  }

  lemma {:induction false} WarrantedStable(c: Config, h: Histories, h': Histories, net: set<Msg>, net': set<Msg>, s: nat, v: int)
    requires HistoriesExtend(c.n, h, h') && net <= net' && Warranted(c, h, net, s, v)
    ensures Warranted(c, h', net', s, v)
  {
    if p :| Chosen(c.n, h, net, s, p) && p.value == v {
      ChosenStable(c.n, h, h', net, net', s, p);
    } else {
      var p :| FastChosen(c.n, h, p) && SentAt(net, 4, p) && p.value == v;
      FastStable(c.n, h, h', p);
      SentAtStable(net, net', 4, p);
    }
  }

  lemma {:induction false} ProposerStable(
    c: Config, h: Histories, h': Histories, net: set<Msg>, net': set<Msg>, a: nat, st: P.State, hedge: bool, kicks: nat)
    requires a < |c.proposers| && HistoriesExtend(c.n, h, h') && net <= net'
    requires ProposerOk(c, h, net, a, st, hedge, kicks)
    ensures ProposerOk(c, h', net', a, st, hedge, kicks)
  {
    if st.decided.Some? {
      WarrantedStable(c, h, h', net, net', st.step, st.decided.value);
    }
  }

  lemma {:induction false} Reflexive(n: nat, h: Histories)
    requires HistoriesOk(n, h)
    ensures HistoriesExtend(n, h, h)
  {
  }

  // -------------------------------------------------------------- a recorder handles

  lemma {:induction false} HandleExtends(c: Config, s: Sys, h: Histories, m: Msg)
    requires Inv(c, s, h) && Enabled(c, s, Handle(m))
    ensures HistoriesExtend(c.n, h, Record(c, s, h, Handle(m)))
    ensures forall r | 0 <= r < c.n ::
              Isr.Represents(Step(c, s, Handle(m)).recorders[r], Record(c, s, h, Handle(m))[r])
  {
    var h' := Record(c, s, h, Handle(m));
    hide AllJustified, RecordedWasSent, RepliesOk, ProposersOk;
    assert ReqOk(c, s, m);
    hide RequestsOk;
    forall r | 0 <= r < c.n
      ensures Isr.HistoryOk(h'[r]) && Isr.Extends(h[r], h'[r])
      ensures Isr.Represents(Step(c, s, Handle(m)).recorders[r], h'[r])
    {
      if r == m.dst {
        Isr.RememberExtends(h[r], m.req.reqStep, m.req.proposal);
        Isr.RecordRefines(s.recorders[r], h[r], m.req.reqStep, m.req.proposal);
      }
    }
  }

  lemma {:induction false} RememberedWasSent(hr: Isr.History, net: set<Msg>, net': set<Msg>, s: nat, q: Proposal)
    requires WasSent(hr, net) && net <= net' && SentAt(net, s, q)
    ensures WasSent(Isr.Remember(hr, s, q), net')
  {
    var hr' := Isr.Remember(hr, s, q);
    forall t | t in hr'.agg
      ensures SentAt(net', t, hr'.agg[t])
    {
      SentAtStable(net, net', t, hr'.agg[t]);
    }
    forall t | t in hr'.first
      ensures SentAt(net', t, hr'.first[t])
    {
      SentAtStable(net, net', t, hr'.first[t]);
    }
  }

  lemma {:induction false} ReplyIsTruthful(i: Isr.Register, h: Isr.History, req: Request)
    requires Isr.Represents(i, h) && req.reqStep > 0
    ensures var i', h' := Handled(i, req), Isr.Remember(h, req.reqStep, req.proposal);
            Truthful(h', Reply(i', req))
            && (i'.step == req.reqStep ==> Folded(h', req.reqStep, req.proposal))
  {
    Isr.RecordRefines(i, h, req.reqStep, req.proposal);
  }

  lemma {:induction false} NewReplyOk(c: Config, s: Sys, h: Histories, m: Msg)
    requires Inv(c, s, h) && Enabled(c, s, Handle(m))
    ensures var i := Handled(s.recorders[m.dst], m.req);
            RespOk(c, Record(c, s, h, Handle(m)), Step(c, s, Handle(m)).net, Resp(m.dst, m.src, Reply(i, m.req)))
  {
    var i := Handled(s.recorders[m.dst], m.req);
    var reply := Resp(m.dst, m.src, Reply(i, m.req));
    assert ReqOk(c, s, m);
    assert SentAt(s.net, m.req.reqStep, m.req.proposal);
    assert Justified(c, h, s.net, m.req.reqStep, m.req.proposal);
    ReplyIsTruthful(s.recorders[m.dst], h[m.dst], m.req);
    assert m == Req(m.src, m.dst, Request(c.slot, m.req.reqStep, m.req.proposal));
    assert Asked(c, Record(c, s, h, Handle(m))[m.dst], Step(c, s, Handle(m)).net, reply, m.req.proposal);
  }

  lemma {:induction false} JustifiedAll(c: Config, h: Histories, h': Histories, net: set<Msg>, net': set<Msg>)
    requires HistoriesExtend(c.n, h, h') && net <= net' && AllJustified(c, h, net)
    requires forall s, q :: SentAt(net', s, q) ==> SentAt(net, s, q) || Justified(c, h, net, s, q)
    ensures AllJustified(c, h', net')
  {
    forall s, q | SentAt(net', s, q)
      ensures Justified(c, h', net', s, q)
    {
      assert SentAt(net, s, q) ==> Justified(c, h, net, s, q);
      JustifiedStable(c, h, h', net, net', s, q);
    }
  }

  /** What handling a request leaves alone, and the one message it adds. */
  lemma {:induction false} HandleShape(c: Config, s: Sys, h: Histories, m: Msg)
    requires Inv(c, s, h) && Enabled(c, s, Handle(m))
    ensures var s', h' := Step(c, s, Handle(m)), Record(c, s, h, Handle(m));
            && Shaped(c, s') && !s'.panicked && s.net <= s'.net
            && s'.proposers == s.proposers && s'.hedge == s.hedge && s'.kicks == s.kicks
            && |h'| == c.n
            && forall k | k in s'.net && k !in s.net && k.Resp? :: RespOk(c, h', s'.net, k)
  {
    NewReplyOk(c, s, h, m);
    hide RespOk;
  }

  lemma {:induction false} HandleRecorders(c: Config, s: Sys, h: Histories, m: Msg)
    requires Inv(c, s, h) && Enabled(c, s, Handle(m))
    ensures RecordersOk(c.n, Step(c, s, Handle(m)).recorders, Record(c, s, h, Handle(m)))
    ensures HistoriesExtend(c.n, h, Record(c, s, h, Handle(m)))
  {
    HandleExtends(c, s, h, m);
    HandleShape(c, s, h, m);
  }

  lemma {:induction false} HandleKeepsInv(c: Config, s: Sys, h: Histories, m: Msg)
    requires Inv(c, s, h) && Enabled(c, s, Handle(m))
    ensures Inv(c, Step(c, s, Handle(m)), Record(c, s, h, Handle(m)))
  {
    var s', h' := Step(c, s, Handle(m)), Record(c, s, h, Handle(m));
    hide Step, Record, AllJustified, RecordedWasSent, RepliesOk, RequestsOk, ProposersOk, RespOk, HistoriesExtend;
    HandleShape(c, s, h, m);
    HandleRecorders(c, s, h, m);
    HandleRecordsSent(c, s, h, m);
    HandleSendsNothing(c, s, m);
    JustifiedAll(c, h, h', s.net, s'.net);
    RepliesStable(c, h, h', s.net, s'.net);
    HandleRequests(c, s, m);
    ProposersStable(c, h, h', s, s');
  }

  lemma {:induction false} HandleRequests(c: Config, s: Sys, m: Msg)
    requires Shaped(c, s) && RequestsOk(c, s)
    ensures RequestsOk(c, Step(c, s, Handle(m)))
  {
    var s' := Step(c, s, Handle(m));
    forall k | k in s'.net && k.Req?
      ensures ReqOk(c, s', k)
    {
      assert ReqOk(c, s, k);
    }
  }

  lemma {:induction false} HandleSendsNothing(c: Config, s: Sys, m: Msg)
    requires Shaped(c, s)
    ensures forall t, q :: SentAt(Step(c, s, Handle(m)).net, t, q) ==> SentAt(s.net, t, q)
  {
  }

  lemma {:induction false} HandleRecordsSent(c: Config, s: Sys, h: Histories, m: Msg)
    requires Inv(c, s, h) && Enabled(c, s, Handle(m))
    ensures RecordedWasSent(c.n, Record(c, s, h, Handle(m)), Step(c, s, Handle(m)).net)
  {
    var s', h' := Step(c, s, Handle(m)), Record(c, s, h, Handle(m));
    assert SentAt(s.net, m.req.reqStep, m.req.proposal);
    forall r | 0 <= r < c.n
      ensures WasSent(h'[r], s'.net)
    {
      assert WasSent(h[r], s.net);
      if r == m.dst {
        RememberedWasSent(h[r], s.net, s'.net, m.req.reqStep, m.req.proposal);
      } else {
        WasSentStable(h[r], s.net, s'.net);
      }
    }
  }

  lemma {:induction false} RepliesStable(c: Config, h: Histories, h': Histories, net: set<Msg>, net': set<Msg>)
    requires HistoriesExtend(c.n, h, h') && net <= net' && RepliesOk(c, h, net)
    requires forall m | m in net' && m !in net && m.Resp? :: RespOk(c, h', net', m)
    ensures RepliesOk(c, h', net')
  {
    forall m | m in net' && m.Resp?
      ensures RespOk(c, h', net', m)
    {
      if m in net {
        RespStable(c, h, h', net, net', m);
      }
    }
  }

  lemma {:induction false} ProposersStable(c: Config, h: Histories, h': Histories, s: Sys, s': Sys)
    requires HistoriesExtend(c.n, h, h') && Shaped(c, s) && Shaped(c, s') && s.net <= s'.net
    requires s.proposers == s'.proposers && s.hedge == s'.hedge && s.kicks == s'.kicks
    requires ProposersOk(c, s, h)
    ensures ProposersOk(c, s', h')
  {
    forall a | 0 <= a < |c.proposers|
      ensures ProposerOk(c, h', s'.net, a, s'.proposers[a], s'.hedge[a], s'.kicks[a])
    {
      ProposerStable(c, h, h', s.net, s'.net, a, s.proposers[a], s.hedge[a], s.kicks[a]);
    }
  }

  lemma {:induction false} WasSentStable(hr: Isr.History, net: set<Msg>, net': set<Msg>)
    requires WasSent(hr, net) && net <= net'
    ensures WasSent(hr, net')
  {
    forall t | t in hr.agg ensures SentAt(net', t, hr.agg[t]) {
      SentAtStable(net, net', t, hr.agg[t]);
    }
    forall t | t in hr.first ensures SentAt(net', t, hr.first[t]) {
      SentAtStable(net, net', t, hr.first[t]);
    }
  }

  // ---------------------------------------------------------------- a proposer acts

  /** Only proposer `a` has changed, and what it newly sent is justified. */
  ghost predicate OnlyMoved(c: Config, s: Sys, s': Sys, a: nat)
    requires Shaped(c, s)
  {
    && a < |c.proposers| && Shaped(c, s') && !s'.panicked
    && s'.recorders == s.recorders && s.net <= s'.net
    && (forall b | 0 <= b < |c.proposers| && b != a ::
          s'.proposers[b] == s.proposers[b] && s'.hedge[b] == s.hedge[b] && s'.kicks[b] == s.kicks[b])
  }

  ghost predicate KeepsRequests(st: P.State, st': P.State) {
    st.activated ==> st'.activated && (st'.step > st.step || (st'.step == st.step && st'.sent == st.sent))
  }

  ghost predicate NewRequestOk(c: Config, s: Sys, s': Sys, h: Histories, m: Msg)
    requires Shaped(c, s') && |h| == c.n
  {
    m.Req? && ReqOk(c, s', m) && Justified(c, h, s.net, m.req.reqStep, m.req.proposal)
  }

  lemma {:induction false} MoveJustified(c: Config, s: Sys, s': Sys, h: Histories, a: nat)
    requires Inv(c, s, h) && OnlyMoved(c, s, s', a)
    requires forall m | m in s'.net && m !in s.net :: NewRequestOk(c, s, s', h, m)
    ensures AllJustified(c, h, s'.net)
  {
    forall t, q | SentAt(s'.net, t, q)
      ensures SentAt(s.net, t, q) || Justified(c, h, s.net, t, q)
    {
      var m :| m in s'.net && m.Req? && m.req.reqStep == t && m.req.proposal == q;
      if m !in s.net {
        assert NewRequestOk(c, s, s', h, m);
      }
    }
    Reflexive(c.n, h);
    JustifiedAll(c, h, h, s.net, s'.net);
  }

  lemma {:induction false} MoveRequests(c: Config, s: Sys, s': Sys, h: Histories, a: nat)
    requires Inv(c, s, h) && OnlyMoved(c, s, s', a) && KeepsRequests(s.proposers[a], s'.proposers[a])
    requires forall m | m in s'.net && m !in s.net :: NewRequestOk(c, s, s', h, m)
    ensures RequestsOk(c, s')
  {
    forall m | m in s'.net && m.Req?
      ensures ReqOk(c, s', m)
    {
      if m in s.net {
        assert ReqOk(c, s, m);
      } else {
        assert NewRequestOk(c, s, s', h, m);
      }
    }
  }

  lemma {:induction false} MoveKeepsInv(c: Config, s: Sys, s': Sys, h: Histories, a: nat)
    requires Inv(c, s, h) && OnlyMoved(c, s, s', a) && KeepsRequests(s.proposers[a], s'.proposers[a])
    requires forall m | m in s'.net && m !in s.net :: NewRequestOk(c, s, s', h, m)
    requires ProposerOk(c, h, s'.net, a, s'.proposers[a], s'.hedge[a], s'.kicks[a])
    ensures Inv(c, s', h)
  {
    Reflexive(c.n, h);
    MoveJustified(c, s, s', h, a);
    MoveRequests(c, s, s', h, a);
    forall r | 0 <= r < c.n ensures WasSent(h[r], s'.net) {
      assert WasSent(h[r], s.net);
      WasSentStable(h[r], s.net, s'.net);
    }
    forall m | m in s'.net && m !in s.net ensures m.Req? {
      assert NewRequestOk(c, s, s', h, m);
    }
    RepliesStable(c, h, h, s.net, s'.net);
    forall b | 0 <= b < |c.proposers|
      ensures ProposerOk(c, h, s'.net, b, s'.proposers[b], s'.hedge[b], s'.kicks[b])
    {
      if b != a {
        ProposerStable(c, h, h, s.net, s'.net, b, s.proposers[b], s.hedge[b], s.kicks[b]);
      }
    }
  }

  /** `s'` is `s` after proposer `a` ran a callback with outcome `o`. */
  ghost predicate Ran(c: Config, s: Sys, s': Sys, a: nat, o: P.Outcome)
    requires Shaped(c, s)
  {
    && OnlyMoved(c, s, s', a) && o.Done?
    && s'.proposers[a] == o.st
    && s'.net == s.net + Requests(a, o.sends)
  }

  /** Beginning a step whose proposals are justified keeps the invariant. */
  lemma {:induction false} BeginKeepsInv(c: Config, s: Sys, s': Sys, h: Histories, a: nat, st: P.State, draws: seq<nat>)
    requires Inv(c, s, h) && a < |c.proposers| && P.DrawsOk(c.proposers[a], draws)
    requires Ran(c, s, s', a, P.BeginStep(c.proposers[a], st, draws))
    requires !s'.hedge[a] && s'.kicks[a] > 0
    requires st.decided.None? && st.step >= 4
    requires s.proposers[a].activated ==> s.proposers[a].step < st.step
    requires forall r | 0 <= r < c.n :: Justified(c, h, s.net, st.step, P.Prepared(c.proposers[a], st, draws, r))
    ensures Inv(c, s', h)
  {
    var pc := c.proposers[a];
    var o := P.BeginStep(pc, st, draws);
    forall m | m in s'.net && m !in s.net
      ensures NewRequestOk(c, s, s', h, m)
    {
      var k :| 0 <= k < |o.sends| && m == Req(a, o.sends[k].0, o.sends[k].1);
      assert o.sends[k] == (k, Request(pc.slot, st.step, P.Prepared(pc, st, draws, k)));
    }
    BegunOutstanding(c, s.net, a, st, draws);
    MoveKeepsInv(c, s, s', h, a);
  }

  lemma {:induction false} BegunOutstanding(c: Config, net: set<Msg>, a: nat, st: P.State, draws: seq<nat>)
    requires WellFormed(c) && a < |c.proposers| && |draws| == c.n && st.step >= 4
    ensures var o := P.BeginStep(c.proposers[a], st, draws);
            Outstanding(c, net + Requests(a, o.sends), a, o.st)
  {
    var pc := c.proposers[a];
    var o := P.BeginStep(pc, st, draws);
    forall r: nat | r in o.st.sent
      ensures Req(a, r, Request(c.slot, st.step, o.st.sent[r])) in Requests(a, o.sends)
    {
      assert o.sends[r] == (r, Request(pc.slot, st.step, P.Prepared(pc, st, draws, r)));
    }
  }
}
