/** What a proposer may conclude from a quorum of replies to its own step. */
module QuorumFacts {
  import opened Proposals
  import opened Recorders
  import opened Quorums
  import opened Concrete
  import opened Facts
  import opened Invariant
  import Isr
  import P = Proposer

  /** `st` is proposer `a` with a quorum of replies to its current step. */
  ghost predicate Holding(c: Config, s: Sys, h: Histories, a: nat, st: P.State) {
    && Inv(c, s, h) && a < |c.proposers|
    && s.proposers[a].activated && s.proposers[a].decided.None?
    && st == s.proposers[a].(responses := st.responses)
    && Outstanding(c, s.net, a, st)
    && |st.responses| >= c.proposers[a].Quorum()
  }

  lemma {:induction false} ReplyFacts(c: Config, s: Sys, h: Histories, a: nat, st: P.State, r: nat)
    requires Holding(c, s, h, a, st) && r in st.responses
    ensures r < c.n && Truthful(h[r], st.responses[r]) && st.responses[r].step >= st.step
    ensures st.responses[r].step == st.step ==> Folded(h[r], st.step, st.sent[r])
  {
    var m := Resp(r, a, st.responses[r]);
    assert RespOk(c, h, s.net, m);
    var q :| Asked(c, h[r], s.net, m, q);
    assert ReqOk(c, s, Req(a, r, Request(c.slot, st.step, q)));
  }

  /** One reply, from a recorder still at step `s`, that folded in the proposal `q` sent to it. */
  ghost predicate Backs(hr: Isr.History, resp: Response, s: nat, q: Proposal) {
    Truthful(hr, resp) && resp.step == s && Folded(hr, s, q)
  }

  /** A majority backs what the proposer sent for its step. */
  ghost predicate Backed(n: nat, h: Histories, st: P.State) {
    && |h| == n && st.step > 0
    && IsQuorum(n, st.responses.Keys)
    && forall r: nat | r in st.responses.Keys ::
         r < n && r in st.sent && Backs(h[r], st.responses[r], st.step, st.sent[r])
  }

  lemma {:induction false} QuorumBacks(c: Config, s: Sys, h: Histories, a: nat, st: P.State)
    requires Holding(c, s, h, a, st) && P.AllAtStep(st)
    ensures Backed(c.n, h, st)
  {
    forall r: nat | r in st.responses.Keys
      ensures r < c.n && r in st.sent && Backs(h[r], st.responses[r], st.step, st.sent[r])
    {
      ReplyFacts(c, s, h, a, st, r);
    }
    assert |st.responses.Keys| == |st.responses|;
    assert c.proposers[a].n == c.n;
  }

  lemma {:induction false} SomeReply(n: nat, h: Histories, st: P.State) returns (r: nat)
    requires Backed(n, h, st)
    ensures r in st.responses.Keys && r < n && r in st.sent && Backs(h[r], st.responses[r], st.step, st.sent[r])
  {
    assert st.responses.Keys != {};
    r :| r in st.responses.Keys;
  }

  lemma {:induction false} TemplateWasSent(c: Config, s: Sys, h: Histories, a: nat, st: P.State)
    requires Holding(c, s, h, a, st) && Backed(c.n, h, st) && st.step % 4 != 0
    ensures SentAt(s.net, st.step, st.proposal)
    ensures forall r | r in st.sent :: st.sent[r] == st.proposal
  {
    var r := SomeReply(c.n, h, st);
    assert Req(a, r, Request(c.slot, st.step, st.sent[r])) in s.net;
  }

  /** The fast path fires only at the first step, on a proposal a majority recorded first. */
  lemma {:induction false} FastPathIsChoice(c: Config, h: Histories, net: set<Msg>, st: P.State, p: Proposal)
    requires Backed(c.n, h, st) && st.step % 4 == 0 && st.step >= 4
    requires AllJustified(c, h, net) && RecordedWasSent(c.n, h, net)
    requires P.UniformH(st.responses, p)
    ensures st.step == 4 && FastChosen(c.n, h, p) && SentAt(net, 4, p)
  {
    var r := SomeReply(c.n, h, st);
    assert WasSent(h[r], net);
    assert SentAt(net, st.step, p);
    assert Justified(c, h, net, st.step, p);
    UniformIsFast(c.n, h, st, p);
  }

  lemma {:induction false} UniformIsFast(n: nat, h: Histories, st: P.State, p: Proposal)
    requires Backed(n, h, st) && st.step == 4 && P.UniformH(st.responses, p)
    ensures FastChosen(n, h, p)
  {
    forall r | r in st.responses.Keys ensures FirstIs(h[r], 4, p) {
      assert Backs(h[r], st.responses[r], st.step, st.sent[r]);
    }
    assert FastBy(n, h, p, st.responses.Keys);
  }

  lemma {:induction false} BestFirst(n: nat, h: Histories, st: P.State)
    requires Backed(n, h, st)
    ensures var b := Best(P.Firsts(st.responses)); b.Some? && FirstBest(n, h, st.step, b.value)
  {
    var firsts := P.Firsts(st.responses);
    var r := SomeReply(n, h, st);
    assert st.responses[r].first.value in firsts;
    var q := Best(firsts).value;
    forall k | k in st.responses.Keys ensures FirstWithin(h[k], st.step, q) {
      assert Backs(h[k], st.responses[k], st.step, st.sent[k]);
      assert st.responses[k].first.value in firsts;
    }
    var k :| k in st.responses && st.responses[k].first.Some? && st.responses[k].first.value == q;
    assert Backs(h[k], st.responses[k], st.step, st.sent[k]);
    assert k in st.responses.Keys && FirstIs(h[k], st.step, q);
    assert FirstBestBy(n, h, st.step, q, st.responses.Keys);
  }

  /** An all-at-step quorum spreads the template the proposer sent. */
  lemma {:induction false} QuorumSpreads(n: nat, h: Histories, st: P.State)
    requires Backed(n, h, st) && forall r | r in st.sent :: st.sent[r] == st.proposal
    ensures SpreadBy(n, h, st.step, st.proposal, st.responses.Keys)
  {
    forall r | r in st.responses.Keys ensures Folded(h[r], st.step, st.proposal) {
      assert Backs(h[r], st.responses[r], st.step, st.sent[r]);
    }
  }

  lemma {:induction false} PriorsWithin(n: nat, h: Histories, st: P.State, q: Proposal)
    requires Backed(n, h, st) && Best(P.PriorAggs(st.responses)) == Some(q)
    ensures GatheredBy(n, h, st.step, q, st.responses.Keys)
  {
    var priors := P.PriorAggs(st.responses);
    forall r | r in st.responses.Keys ensures PriorWithin(h[r], st.step, q) {
      assert Backs(h[r], st.responses[r], st.step, st.sent[r]);
      if st.step - 1 in h[r].agg {
        assert st.responses[r].priorAgg.value in priors;
      }
    }
    var r :| r in st.responses && st.responses[r].priorAgg.Some? && st.responses[r].priorAgg.value == q;
    assert Backs(h[r], st.responses[r], st.step, st.sent[r]);
    assert r in st.responses.Keys && PriorIs(h[r], st.step, q);
  }

  lemma {:induction false} GatherBeats(n: nat, h: Histories, st: P.State, q: Proposal)
    requires Backed(n, h, st) && Spread(n, h, st.step - 1, q)
    ensures var b := Best(P.PriorAggs(st.responses)); b.Some? && Le(q, b.value)
  {
    var k :| SpreadBy(n, h, st.step - 1, q, k);
    var r := Intersect(n, st.responses.Keys, k);
    assert Backs(h[r], st.responses[r], st.step, st.sent[r]);
    assert Folded(h[r], st.step - 1, q);
    assert st.responses[r].priorAgg.value in P.PriorAggs(st.responses);
  }

  lemma {:induction false} SpreadAndWithin(n: nat, h: Histories, s: nat, p: Proposal, quorum: set<nat>)
    requires |h| == n && SpreadBy(n, h, s, p, quorum) && GatheredBy(n, h, s, p, quorum)
    ensures ChosenBy(n, h, s, p, quorum)
  {
  }

  lemma {:induction false} PhaseTwoIsChoice(c: Config, h: Histories, net: set<Msg>, st: P.State)
    requires Backed(c.n, h, st) && st.step % 4 == 2
    requires SentAt(net, st.step, st.proposal) && forall r | r in st.sent :: st.sent[r] == st.proposal
    requires Best(P.PriorAggs(st.responses)) == Some(st.proposal)
    ensures Chosen(c.n, h, net, st.step, st.proposal)
  {
    QuorumSpreads(c.n, h, st);
    PriorsWithin(c.n, h, st, st.proposal);
    SpreadAndWithin(c.n, h, st.step, st.proposal, st.responses.Keys);
  }

  /** In phases 2 and 3 a quorum at the proposer's step always carries something from the
      step before, at least as good as what the proposer sent. */
  lemma {:induction false} GatherIsNeverEmpty(c: Config, h: Histories, net: set<Msg>, st: P.State)
    requires Backed(c.n, h, st) && AllJustified(c, h, net) && SentAt(net, st.step, st.proposal)
    requires st.step % 4 == 2 || st.step % 4 == 3
    ensures P.PriorAggs(st.responses) != {}
    ensures Le(st.proposal, Best(P.PriorAggs(st.responses)).value)
  {
    SentWasSpread(c, h, net, st.step, st.proposal);
    GatherBeats(c.n, h, st, st.proposal);
  }

  /** A quorum that is not all at the proposer's step has a reply that is ahead, and what it
      names was sent for the step it reports. */
  lemma {:induction false} CatchUpTarget(c: Config, s: Sys, h: Histories, a: nat, st: P.State)
    requires Holding(c, s, h, a, st) && !P.AllAtStep(st)
    ensures st.responses != map[]
    ensures var reply := st.responses[P.FurthestReply(st.responses)];
            reply.step > st.step && reply.first.Some? && SentAt(s.net, reply.step, reply.first.value)
  {
    var b :| b in st.responses && st.responses[b].step != st.step;
    ReplyFacts(c, s, h, a, st, b);
    var k := P.FurthestReply(st.responses);
    assert P.NotAhead(st.responses, b, k);
    ReplyFacts(c, s, h, a, st, k);
    assert WasSent(h[k], s.net);
  }
}
