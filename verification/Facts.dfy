/** What recorders' histories and the messages ever sent jointly establish. Every fact here
    is stable: once true it stays true as histories extend and messages accumulate. */
module Facts {
  import opened Proposals
  import opened Quorums
  import opened Concrete
  import Isr

  type Histories = seq<Isr.History>

  ghost predicate HistoriesOk(n: nat, h: Histories) {
    |h| == n && forall r | 0 <= r < n :: Isr.HistoryOk(h[r])
  }

  ghost predicate HistoriesExtend(n: nat, h: Histories, h': Histories) {
    HistoriesOk(n, h) && HistoriesOk(n, h') && forall r | 0 <= r < n :: Isr.Extends(h[r], h'[r])
  }

  /** `q` was sent in a request for step `s`. */
  ghost predicate SentAt(net: set<Msg>, s: nat, q: Proposal) {
    exists m :: m in net && m.Req? && m.req.reqStep == s && m.req.proposal == q
  }

  ghost predicate WasSent(hr: Isr.History, net: set<Msg>) {
    && (forall s | s in hr.agg :: SentAt(net, s, hr.agg[s]))
    && (forall s | s in hr.first :: SentAt(net, s, hr.first[s]))
  }

  /** Everything recorded at recorders was sent for that very step. */
  ghost predicate RecordedWasSent(n: nat, h: Histories, net: set<Msg>)
    requires |h| == n
  {
    forall r | 0 <= r < n :: WasSent(h[r], net)
  }

  // ------------------------------------------------------------------- quorum facts

  /** One recorder folded `q` into its aggregate at step `s`. */
  ghost predicate Folded(hr: Isr.History, s: nat, q: Proposal) {
    s in hr.agg && Le(q, hr.agg[s])
  }

  /** One recorder reached step `s` having first recorded nothing there above `q`. */
  ghost predicate FirstWithin(hr: Isr.History, s: nat, q: Proposal) {
    s in hr.first && Le(hr.first[s], q)
  }

  ghost predicate FirstIs(hr: Isr.History, s: nat, q: Proposal) {
    s in hr.first && hr.first[s] == q
  }

  /** One recorder went on to step `s`, having aggregated nothing above `x` one step before. */
  ghost predicate PriorWithin(hr: Isr.History, s: nat, x: Proposal) {
    s > 0 && s in hr.first && (s - 1 in hr.agg ==> Le(hr.agg[s - 1], x))
  }

  ghost predicate PriorIs(hr: Isr.History, s: nat, x: Proposal) {
    s > 0 && s in hr.first && s - 1 in hr.agg && hr.agg[s - 1] == x
  }

  /** A majority folded `q` into its aggregate at step `s`. */
  ghost predicate SpreadBy(n: nat, h: Histories, s: nat, q: Proposal, quorum: set<nat>)
    requires |h| == n
  {
    IsQuorum(n, quorum) && forall r | r in quorum :: Folded(h[r], s, q)
  }

  ghost predicate Spread(n: nat, h: Histories, s: nat, q: Proposal)
    requires |h| == n
  {
    exists quorum :: SpreadBy(n, h, s, q, quorum)
  }

  /** `q` is the best first value of step `s` over a majority. */
  ghost predicate FirstBestBy(n: nat, h: Histories, s: nat, q: Proposal, quorum: set<nat>)
    requires |h| == n
  {
    && IsQuorum(n, quorum)
    && (forall r | r in quorum :: FirstWithin(h[r], s, q))
    && (exists r :: r in quorum && FirstIs(h[r], s, q))
  }

  ghost predicate FirstBest(n: nat, h: Histories, s: nat, q: Proposal)
    requires |h| == n
  {
    exists quorum :: FirstBestBy(n, h, s, q, quorum)
  }

  /** `x` is the best step-`s - 1` aggregate over a majority that went on to step `s`. */
  ghost predicate GatheredBy(n: nat, h: Histories, s: nat, x: Proposal, quorum: set<nat>)
    requires |h| == n
  {
    && IsQuorum(n, quorum)
    && (forall r | r in quorum :: PriorWithin(h[r], s, x))
    && (exists r :: r in quorum && PriorIs(h[r], s, x))
  }

  ghost predicate Gathered(n: nat, h: Histories, s: nat, x: Proposal)
    requires |h| == n
  {
    exists quorum :: GatheredBy(n, h, s, x, quorum)
  }

  /** `p` won a phase 2: a majority folded it in at step `s`, and nothing that majority had
      aggregated one step earlier beats it. */
  ghost predicate ChosenBy(n: nat, h: Histories, s: nat, p: Proposal, quorum: set<nat>)
    requires |h| == n
  {
    && IsQuorum(n, quorum)
    && (forall r | r in quorum :: Folded(h[r], s, p) && PriorWithin(h[r], s, p))
  }

  ghost predicate Chosen(n: nat, h: Histories, net: set<Msg>, s: nat, p: Proposal)
    requires |h| == n
  {
    s % 4 == 2 && SentAt(net, s, p) && exists quorum :: ChosenBy(n, h, s, p, quorum)
  }

  /** `p` won the fast path: a majority recorded it first at the first step. */
  ghost predicate FastBy(n: nat, h: Histories, p: Proposal, quorum: set<nat>)
    requires |h| == n
  {
    IsQuorum(n, quorum) && forall r | r in quorum :: FirstIs(h[r], 4, p)
  }

  ghost predicate FastChosen(n: nat, h: Histories, p: Proposal)
    requires |h| == n
  {
    p.priority == H && exists quorum :: FastBy(n, h, p, quorum)
  }

  // --------------------------------------------------------------------- provenance

  /** `q` is what proposer `a` may send for the very first step. */
  ghost predicate Opening(c: Config, a: int, q: Proposal) {
    && 0 <= a < |c.proposers|
    && q.value == c.proposers[a].initial
    && q.origin == c.proposers[a].selfId
    && (if c.proposers[a].IsLeader() then q.priority == H else 1 <= q.priority < H)
  }

  /** `q` opens a later round: a fresh draw on the value gathered by a phase 3. */
  ghost predicate NewRound(n: nat, h: Histories, s: nat, q: Proposal)
    requires |h| == n && s > 0
  {
    1 <= q.priority < H && exists x :: Gathered(n, h, s - 1, x) && q.value == x.value
  }

  /** Why `q` may appear in a request for step `s`. */
  ghost predicate Justified(c: Config, h: Histories, net: set<Msg>, s: nat, q: Proposal)
    requires |h| == c.n
  {
    if s < 4 then false
    else if s == 4 then exists a :: Opening(c, a, q)
    else if s % 4 == 0 then NewRound(c.n, h, s, q)
    else if s % 4 == 1 then FirstBest(c.n, h, s - 1, q)
    else Spread(c.n, h, s - 1, q) && SentAt(net, s - 1, q)
  }

  ghost predicate AllJustified(c: Config, h: Histories, net: set<Msg>)
    requires |h| == c.n
  {
    forall s, q {:trigger Justified(c, h, net, s, q)} :: SentAt(net, s, q) ==> Justified(c, h, net, s, q)
  }

  // ---------------------------------------------------------------------- stability

  lemma {:induction false} SentAtStable(net: set<Msg>, net': set<Msg>, s: nat, q: Proposal)
    requires net <= net' && SentAt(net, s, q)
    ensures SentAt(net', s, q)
  {
  }

  lemma {:induction false} SpreadStable(n: nat, h: Histories, h': Histories, s: nat, q: Proposal)
    requires HistoriesExtend(n, h, h') && Spread(n, h, s, q)
    ensures Spread(n, h', s, q)
  {
    var quorum :| SpreadBy(n, h, s, q, quorum);
    forall r: nat | r < n ensures Folded(h[r], s, q) ==> Folded(h'[r], s, q)
    {
      OneStable(h[r], h'[r], s, q);
    }
    assert SpreadBy(n, h', s, q, quorum);
  }

  lemma {:induction false} OneStable(hr: Isr.History, hr': Isr.History, s: nat, q: Proposal)
    requires Isr.HistoryOk(hr) && Isr.Extends(hr, hr')
    ensures Folded(hr, s, q) ==> Folded(hr', s, q)
    ensures FirstWithin(hr, s, q) ==> FirstWithin(hr', s, q)
    ensures FirstIs(hr, s, q) ==> FirstIs(hr', s, q)
    ensures PriorWithin(hr, s, q) ==> PriorWithin(hr', s, q)
    ensures PriorIs(hr, s, q) ==> PriorIs(hr', s, q)
  {
    if s in hr.first {
      assert s <= hr.step;
    }
  }

  lemma {:induction false} FirstBestStable(n: nat, h: Histories, h': Histories, s: nat, q: Proposal)
    requires HistoriesExtend(n, h, h') && FirstBest(n, h, s, q)
    ensures FirstBest(n, h', s, q)
  {
    var quorum :| FirstBestBy(n, h, s, q, quorum);
    forall r: nat | r < n ensures FirstWithin(h[r], s, q) ==> FirstWithin(h'[r], s, q)
                          ensures FirstIs(h[r], s, q) ==> FirstIs(h'[r], s, q)
    {
      OneStable(h[r], h'[r], s, q);
    }
    assert FirstBestBy(n, h', s, q, quorum);
  }

  lemma {:induction false} GatheredStable(n: nat, h: Histories, h': Histories, s: nat, x: Proposal)
    requires HistoriesExtend(n, h, h') && Gathered(n, h, s, x)
    ensures Gathered(n, h', s, x)
  {
    var quorum :| GatheredBy(n, h, s, x, quorum);
    forall r: nat | r < n ensures PriorWithin(h[r], s, x) ==> PriorWithin(h'[r], s, x)
                          ensures PriorIs(h[r], s, x) ==> PriorIs(h'[r], s, x)
    {
      OneStable(h[r], h'[r], s, x);
    }
    assert GatheredBy(n, h', s, x, quorum);
  }

  lemma {:induction false} ChosenStable(n: nat, h: Histories, h': Histories, net: set<Msg>, net': set<Msg>, s: nat, p: Proposal)
    requires HistoriesExtend(n, h, h') && net <= net' && Chosen(n, h, net, s, p)
    ensures Chosen(n, h', net', s, p)
  {
    var quorum :| ChosenBy(n, h, s, p, quorum);
    forall r: nat | r < n ensures Folded(h[r], s, p) ==> Folded(h'[r], s, p)
                          ensures PriorWithin(h[r], s, p) ==> PriorWithin(h'[r], s, p)
    {
      OneStable(h[r], h'[r], s, p);
    }
    assert ChosenBy(n, h', s, p, quorum);
  }

  lemma {:induction false} FastStable(n: nat, h: Histories, h': Histories, p: Proposal)
    requires HistoriesExtend(n, h, h') && FastChosen(n, h, p)
    ensures FastChosen(n, h', p)
  {
    var quorum :| FastBy(n, h, p, quorum);
    forall r: nat | r < n ensures FirstIs(h[r], 4, p) ==> FirstIs(h'[r], 4, p)
    {
      OneStable(h[r], h'[r], 4, p);
    }
    assert FastBy(n, h', p, quorum);
  }

  lemma {:induction false} ExtendShapes(n: nat, h: Histories, h': Histories)
    requires HistoriesExtend(n, h, h')
    ensures |h| == |h'| == n
  {
  }

  lemma {:induction false} JustifiedStable(c: Config, h: Histories, h': Histories, net: set<Msg>, net': set<Msg>, s: nat, q: Proposal)
    requires HistoriesExtend(c.n, h, h') && net <= net' && Justified(c, h, net, s, q)
    ensures Justified(c, h', net', s, q)
  {
    hide FirstBest, Spread, Gathered, HistoriesExtend, SentAt, Opening;
    ExtendShapes(c.n, h, h');
    if s == 4 {
    } else if s % 4 == 0 {
      var x :| Gathered(c.n, h, s - 1, x) && q.value == x.value;
      GatheredStable(c.n, h, h', s - 1, x);
    } else if s % 4 == 1 {
      FirstBestStable(c.n, h, h', s - 1, q);
    } else {
      SpreadStable(c.n, h, h', s - 1, q);
      SentAtStable(net, net', s - 1, q);
    }
  }

  // -------------------------------------------------------- consequences of the facts

  /** Two majorities meet: what one spread, the other carries along. */
  lemma {:induction false} ChoiceMeetsSpread(n: nat, h: Histories, s: nat, p: Proposal, q: Proposal, m: set<nat>)
    requires |h| == n && s > 0
    requires ChosenBy(n, h, s, p, m) && Spread(n, h, s - 1, q)
    ensures Le(q, p)
  {
    var k :| SpreadBy(n, h, s - 1, q, k);
    var r := Intersect(n, m, k);
    assert Folded(h[r], s - 1, q) && PriorWithin(h[r], s, p);
  }

  /** Whatever is sent in phase 2 or 3 was folded in by a majority one step before. */
  lemma {:induction false} SentWasSpread(c: Config, h: Histories, net: set<Msg>, s: nat, q: Proposal)
    requires |h| == c.n && AllJustified(c, h, net) && SentAt(net, s, q) && (s % 4 == 2 || s % 4 == 3)
    ensures s > 4 && Spread(c.n, h, s - 1, q)
  {
    assert Justified(c, h, net, s, q);
  }

  /** Nothing sent at a phase-2 step beats the proposal chosen there. */
  lemma {:induction false} ChosenIsTop(c: Config, h: Histories, net: set<Msg>, s: nat, p: Proposal, q: Proposal)
    requires |h| == c.n && AllJustified(c, h, net)
    requires Chosen(c.n, h, net, s, p) && SentAt(net, s, q)
    ensures Le(q, p)
  {
    SentWasSpread(c, h, net, s, q);
    var m :| ChosenBy(c.n, h, s, p, m);
    ChoiceMeetsSpread(c.n, h, s, p, q, m);
  }

  lemma {:induction false} GatherKeepsChoice(n: nat, h: Histories, s: nat, p: Proposal, x: Proposal, m: set<nat>)
    requires |h| == n && ChosenBy(n, h, s, p, m) && Gathered(n, h, s + 1, x)
    ensures Le(p, x)
  {
    var g :| GatheredBy(n, h, s + 1, x, g);
    var r := Intersect(n, m, g);
    assert Folded(h[r], s, p) && PriorWithin(h[r], s + 1, x);
  }

  /** A phase 3 that follows a choice gathers exactly the chosen proposal. */
  lemma {:induction false} GatherAfterChoice(c: Config, h: Histories, net: set<Msg>, s: nat, p: Proposal, x: Proposal)
    requires |h| == c.n && AllJustified(c, h, net) && RecordedWasSent(c.n, h, net)
    requires Chosen(c.n, h, net, s, p) && Gathered(c.n, h, s + 1, x)
    ensures x == p
  {
    var m :| ChosenBy(c.n, h, s, p, m);
    GatherKeepsChoice(c.n, h, s, p, x, m);
    GatheredWasSent(c, h, net, s + 1, x);
    ChosenIsTop(c, h, net, s, p, x);
  }

  /** Everything sent at step `s` carries a value in `w`. */
  ghost predicate ValuesAt(net: set<Msg>, s: nat, w: iset<int>) {
    forall q :: SentAt(net, s, q) ==> q.value in w
  }

  lemma {:induction false} GatheredWasSent(c: Config, h: Histories, net: set<Msg>, s: nat, x: Proposal)
    requires |h| == c.n && RecordedWasSent(c.n, h, net) && s > 0 && Gathered(c.n, h, s, x)
    ensures SentAt(net, s - 1, x)
  {
    var g :| GatheredBy(c.n, h, s, x, g);
    var r :| r in g && PriorIs(h[r], s, x);
    assert WasSent(h[r], net);
  }

  lemma {:induction false} FirstBestWasSent(c: Config, h: Histories, net: set<Msg>, s: nat, x: Proposal)
    requires |h| == c.n && RecordedWasSent(c.n, h, net) && FirstBest(c.n, h, s, x)
    ensures SentAt(net, s, x)
  {
    var g :| FirstBestBy(c.n, h, s, x, g);
    var r :| r in g && FirstIs(h[r], s, x);
    assert WasSent(h[r], net);
  }

  /** Where the value of a proposal comes from: the step before, or two steps before for a
      new round. */
  lemma {:induction false} ValueSource(c: Config, h: Histories, net: set<Msg>, s: nat, q: Proposal) returns (s': nat, q': Proposal)
    requires |h| == c.n && AllJustified(c, h, net) && RecordedWasSent(c.n, h, net)
    requires s > 4 && SentAt(net, s, q)
    ensures s' == (if s % 4 == 0 then s - 2 else s - 1)
    ensures SentAt(net, s', q') && q'.value == q.value
  {
    assert Justified(c, h, net, s, q);
    if s % 4 == 0 {
      var x :| Gathered(c.n, h, s - 1, x) && q.value == x.value;
      GatheredWasSent(c, h, net, s - 1, x);
      s', q' := s - 2, x;
    } else {
      if s % 4 == 1 {
        FirstBestWasSent(c, h, net, s - 1, q);
      }
      s', q' := s - 1, q;
    }
  }

  /** A set of values that contains everything sent at step `from` contains everything sent
      later, unless `from` is a phase 3. */
  lemma {:induction false} ValuesPersist(c: Config, h: Histories, net: set<Msg>, from: nat, w: iset<int>, s: nat)
    requires |h| == c.n && AllJustified(c, h, net) && RecordedWasSent(c.n, h, net)
    requires 4 <= from <= s && from % 4 != 3 && ValuesAt(net, from, w)
    ensures ValuesAt(net, s, w)
    decreases s
  {
    if s == from {
    } else {
      forall q | SentAt(net, s, q)
        ensures q.value in w
      {
        var s', q' := ValueSource(c, h, net, s, q);
        ValuesPersist(c, h, net, from, w, s');
      }
    }
  }

  /** After a choice in one round, every proposal ever sent in a later round carries the
      chosen value. */
  lemma {:induction false} ChoiceDominates(c: Config, h: Histories, net: set<Msg>, s: nat, p: Proposal, t: nat)
    requires |h| == c.n && AllJustified(c, h, net) && RecordedWasSent(c.n, h, net)
    requires Chosen(c.n, h, net, s, p) && t >= s + 2
    ensures ValuesAt(net, t, iset{p.value})
  {
    assert s >= 4 by { assert Justified(c, h, net, s, p); }
    forall q | SentAt(net, s + 2, q)
      ensures q.value == p.value
    {
      NextRoundOfChoice(c, h, net, s, p, q);
    }
    ValuesPersist(c, h, net, s + 2, iset{p.value}, t);
  }

  lemma {:induction false} NextRoundOfChoice(c: Config, h: Histories, net: set<Msg>, s: nat, p: Proposal, q: Proposal)
    requires |h| == c.n && AllJustified(c, h, net) && RecordedWasSent(c.n, h, net)
    requires Chosen(c.n, h, net, s, p) && SentAt(net, s + 2, q)
    ensures q.value == p.value
  {
    assert s >= 4 by { assert Justified(c, h, net, s, p); }
    assert NewRound(c.n, h, s + 2, q) by {
      assert (s + 2) % 4 == 0;
      assert Justified(c, h, net, s + 2, q);
    }
    var x :| Gathered(c.n, h, s + 1, x) && q.value == x.value;
    GatherAfterChoice(c, h, net, s, p, x);
  }

  /** An opening at least as good as one at the reserved priority carries the same value. */
  lemma {:induction false} TopIsUnique(c: Config, h: Histories, net: set<Msg>, p: Proposal, q: Proposal)
    requires |h| == c.n && AllJustified(c, h, net) && LeadersAgree(c)
    requires SentAt(net, 4, p) && SentAt(net, 4, q) && p.priority == H && Le(p, q)
    ensures p.value == q.value
  {
    assert Justified(c, h, net, 4, p) && Justified(c, h, net, 4, q);
    var a :| Opening(c, a, p);
    var b :| Opening(c, b, q);
    assert c.proposers[a].IsLeader() && c.proposers[b].IsLeader();
  }

  /** A best first value of the first step carries what the fast path chose. */
  lemma {:induction false} FastMeetsFirstBest(
    c: Config, h: Histories, net: set<Msg>, p: Proposal, m: set<nat>, q: Proposal, g: set<nat>)
    requires |h| == c.n && AllJustified(c, h, net) && RecordedWasSent(c.n, h, net)
    requires Uncontested(c) && p.priority == H && FastBy(c.n, h, p, m) && FirstBestBy(c.n, h, 4, q, g)
    ensures q.value == p.value
  {
    var r' :| r' in g && FirstIs(h[r'], 4, q);
    if c.n <= 2 {
      assert r' in m by { SmallQuorumIsAll(c.n, m, r'); }
      assert FirstIs(h[r'], 4, p);
    } else {
      var r := Intersect(c.n, m, g);
      assert FirstIs(h[r], 4, p) && FirstWithin(h[r], 4, q);
      assert WasSent(h[r], net) && WasSent(h[r'], net);
      TopIsUnique(c, h, net, p, q);
    }
  }

  /** After a fast-path choice, every proposal ever sent past the first step carries its value. */
  lemma {:induction false} FastDominates(c: Config, h: Histories, net: set<Msg>, p: Proposal, t: nat)
    requires |h| == c.n && AllJustified(c, h, net) && RecordedWasSent(c.n, h, net)
    requires Uncontested(c) && FastChosen(c.n, h, p) && t >= 5
    ensures ValuesAt(net, t, iset{p.value})
  {
    var m :| FastBy(c.n, h, p, m);
    forall q | SentAt(net, 5, q)
      ensures q.value == p.value
    {
      assert Justified(c, h, net, 5, q);
      var g :| FirstBestBy(c.n, h, 4, q, g);
      FastMeetsFirstBest(c, h, net, p, m, q, g);
    }
    assert ValuesAt(net, 5, iset{p.value});
    ValuesPersist(c, h, net, 5, iset{p.value}, t);
  }
}
