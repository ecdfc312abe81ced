/** The constant-space interval summary register, and the full-history register it
    stands for. */
module Isr {
  import opened Proposals

  /** The register's four fields as one value. */
  datatype Register = Register(
    step: nat,
    first: Option<Proposal>,
    currentAgg: Option<Proposal>,
    priorAgg: Option<Proposal>)

  datatype Summary = Summary(step: nat, first: Option<Proposal>, priorAgg: Option<Proposal>)

  datatype Call = Call(step: nat, proposal: Proposal)

  const EMPTY: Register := Register(0, None, None, None)

  /** Maximum of two optional proposals, an absent one below every present one. */
  function Aggregate(a: Option<Proposal>, b: Option<Proposal>): Option<Proposal> {
    match (a, b)
    case (None, _) => b
    case (_, None) => a
    case (Some(x), Some(y)) => Some(Max(x, y))
  }

  function Record(i: Register, s: nat, v: Proposal): Register {
    if s < i.step then i
    else if s == i.step then i.(currentAgg := Aggregate(i.currentAgg, Some(v)))
    else Register(s, Some(v), Some(v), if s == i.step + 1 then i.currentAgg else None)
  }

  function Summarise(i: Register): Summary {
    Summary(i.step, i.first, i.priorAgg)
  }

  function Replay(calls: seq<Call>): Register {
    if calls == [] then EMPTY
    else
      var last := calls[|calls| - 1];
      Record(Replay(calls[..|calls| - 1]), last.step, last.proposal)
  }

  /** The register as the object its owner updates in place. */
  class Cell {
    var step: nat
    var first: Option<Proposal>
    var currentAgg: Option<Proposal>
    var priorAgg: Option<Proposal>

    function State(): Register
      reads this
    {
      Register(step, first, currentAgg, priorAgg)
    }

    constructor ()
      ensures State() == EMPTY
    {
      step, first, currentAgg, priorAgg := 0, None, None, None;
    }

    method RecordCall(s: nat, v: Proposal) returns (summary: Summary)
      modifies this
      ensures State() == Record(old(State()), s, v)
      ensures summary == Summarise(State())
    {
      if s < step {
        // Obsolete: discarded.
      } else if s == step {
        currentAgg := Aggregate(currentAgg, Some(v));
      } else {
        priorAgg := if s == step + 1 then currentAgg else None;
        step := s;
        first := Some(v);
        currentAgg := Some(v);
      }
      summary := Summary(step, first, priorAgg);
    }
  }

  // ---------------------------------------------------------------- full history

  /** The unbounded register: for every step ever reached, the first value recorded there
      and the maximum recorded there. */
  datatype History = History(step: nat, first: map<nat, Proposal>, agg: map<nat, Proposal>)

  const NO_HISTORY: History := History(0, map[], map[])

  function Remember(h: History, s: nat, v: Proposal): History {
    if s < h.step then h
    else if s == h.step then
      h.(agg := h.agg[s := if s in h.agg then Max(h.agg[s], v) else v])
    else History(s, h.first[s := v], h.agg[s := v])
  }

  function Lookup(m: map<nat, Proposal>, s: nat): Option<Proposal> {
    if s in m then Some(m[s]) else None
  }

  ghost predicate HistoryOk(h: History) {
    && (forall s | s in h.agg :: s <= h.step)
    && (forall s | s in h.first :: s in h.agg)
    && (forall s | s in h.agg && s > 0 :: s in h.first)
    && (h.step > 0 ==> h.step in h.first)
  }

  /** What the constant-space register retains of a history. */
  ghost predicate Represents(i: Register, h: History) {
    && HistoryOk(h)
    && i.step == h.step
    && i.first == Lookup(h.first, h.step)
    && i.currentAgg == Lookup(h.agg, h.step)
    && i.priorAgg == (if h.step == 0 then None else Lookup(h.agg, h.step - 1))
  }

  lemma {:induction false} RecordRefines(i: Register, h: History, s: nat, v: Proposal)
    requires Represents(i, h)
    ensures Represents(Record(i, s, v), Remember(h, s, v))
  {
  }

  /** `h'` extends `h`: first values never change, aggregates only grow, and every step
      already left behind is frozen. */
  ghost predicate Extends(h: History, h': History) {
    && h.step <= h'.step
    && (forall s | s in h.first :: s in h'.first && h'.first[s] == h.first[s])
    && (forall s | s in h.agg :: s in h'.agg && Le(h.agg[s], h'.agg[s]))
    && (forall s | s < h.step :: (s in h'.agg <==> s in h.agg) && (s in h.agg ==> h'.agg[s] == h.agg[s]))
  }

  lemma {:induction false} RememberExtends(h: History, s: nat, v: Proposal)
    requires HistoryOk(h)
    ensures Extends(h, Remember(h, s, v))
    ensures HistoryOk(Remember(h, s, v))
  {
  }

  // ------------------------------------------------- meaning over the calls themselves

  function MaxStep(calls: seq<Call>): (m: nat)
    ensures forall k | 0 <= k < |calls| :: calls[k].step <= m
    ensures m == 0 || exists k :: 0 <= k < |calls| && calls[k].step == m
  {
    if calls == [] then 0
    else
      var m := MaxStep(calls[..|calls| - 1]);
      var s := calls[|calls| - 1].step;
      assert calls[|calls| - 1].step == s;
      if s > m then s else m
  }

  /** The values recorded at step `s`, in order: those of the calls for `s` that no earlier
      call had overtaken with a larger step. */
  function Accepted(calls: seq<Call>, s: nat): seq<Proposal> {
    if calls == [] then []
    else
      var before, last := calls[..|calls| - 1], calls[|calls| - 1];
      Accepted(before, s) + if last.step == s && MaxStep(before) <= s then [last.proposal] else []
  }

  ghost predicate FirstOf(accepted: seq<Proposal>, p: Option<Proposal>) {
    p == if accepted == [] then None else Some(accepted[0])
  }

  ghost predicate MaximumOf(accepted: seq<Proposal>, p: Option<Proposal>) {
    && (p.None? <==> accepted == [])
    && (p.Some? ==> p.value in accepted && forall q | q in accepted :: Le(q, p.value))
  }

  function Chronicle(calls: seq<Call>): History {
    if calls == [] then NO_HISTORY
    else
      var last := calls[|calls| - 1];
      Remember(Chronicle(calls[..|calls| - 1]), last.step, last.proposal)
  }

  lemma {:induction false} ReplayRepresents(calls: seq<Call>)
    ensures Represents(Replay(calls), Chronicle(calls))
  {
    if calls == [] {
    } else {
      var n := |calls| - 1;
      ReplayRepresents(calls[..n]);
      RecordRefines(Replay(calls[..n]), Chronicle(calls[..n]), calls[n].step, calls[n].proposal);
    }
  }

  lemma {:induction false} ChronicleStep(calls: seq<Call>)
    ensures Chronicle(calls).step == MaxStep(calls)
  {
    if calls == [] {
    } else {
      ChronicleStep(calls[..|calls| - 1]);
      assert calls[|calls| - 1].step <= MaxStep(calls);
    }
  }

  /** What remembering one more value does to step `s`. */
  lemma {:induction false} RememberLooksUp(h: History, t: nat, v: Proposal, s: nat)
    requires HistoryOk(h) && t >= 1
    ensures var h' := Remember(h, t, v);
            && Lookup(h'.first, s) == (if t == s && h.step < t then Some(v) else Lookup(h.first, s))
            && Lookup(h'.agg, s) == (if t == s && h.step <= t then Aggregate(Lookup(h.agg, s), Some(v)) else Lookup(h.agg, s))
    ensures h.step < s ==> Lookup(h.first, s).None? && Lookup(h.agg, s).None?
    ensures s == h.step >= 1 ==> Lookup(h.first, s).Some?
  {
  }

  lemma {:induction false} MaximumGrows(older: seq<Proposal>, p: Option<Proposal>, v: Proposal)
    requires MaximumOf(older, p)
    ensures MaximumOf(older + [v], Aggregate(p, Some(v)))
  {
    assert forall q :: q in older + [v] <==> q in older || q == v;
  }

  /** The full history is what the calls say it is, for every step. */
  lemma {:induction false} ChronicleMeaning(calls: seq<Call>, s: nat)
    requires forall k | 0 <= k < |calls| :: calls[k].step >= 1
    ensures FirstOf(Accepted(calls, s), Lookup(Chronicle(calls).first, s))
    ensures MaximumOf(Accepted(calls, s), Lookup(Chronicle(calls).agg, s))
  {
    if calls == [] {
    } else {
      hide Remember, Aggregate, HistoryOk, MaximumOf, Lookup;
      var n := |calls| - 1;
      var before, last := calls[..n], calls[n];
      ChronicleMeaning(before, s);
      ChronicleStep(before);
      ChronicleIsOk(before);
      RememberLooksUp(Chronicle(before), last.step, last.proposal, s);
      var older := Accepted(before, s);
      if last.step == s && MaxStep(before) <= s {
        assert Accepted(calls, s) == older + [last.proposal];
        MaximumGrows(older, Lookup(Chronicle(before).agg, s), last.proposal);
      } else {
        assert Accepted(calls, s) == older;
      }
    }
  }

  lemma {:induction false} ChronicleIsOk(calls: seq<Call>)
    ensures HistoryOk(Chronicle(calls))
  {
    ReplayRepresents(calls);
  }

  /** The four-field register answers exactly what the unbounded one would: the largest
      step seen, the first value accepted there, and the maximum of the values accepted one
      step earlier. */
  lemma {:induction false} ConstantSpaceRefinesFullHistory(calls: seq<Call>)
    requires calls != [] && forall k | 0 <= k < |calls| :: calls[k].step >= 1
    ensures var s := Summarise(Replay(calls));
            && s.step == MaxStep(calls) >= 1
            && s.first.Some? && FirstOf(Accepted(calls, s.step), s.first)
            && MaximumOf(Accepted(calls, s.step - 1), s.priorAgg)
  {
    hide Le, Replay, Chronicle, Accepted;
    var m := SummaryLooksUp(calls);
    FirstMeaning(calls, m);
    MaximumMeaning(calls, m - 1);
  }

  lemma {:induction false} SummaryLooksUp(calls: seq<Call>) returns (m: nat)
    requires calls != [] && forall k | 0 <= k < |calls| :: calls[k].step >= 1
    ensures m == MaxStep(calls) >= 1
    ensures m in Chronicle(calls).first
    ensures Summarise(Replay(calls)) == Summary(m, Lookup(Chronicle(calls).first, m), Lookup(Chronicle(calls).agg, m - 1))
  {
    m := MaxStep(calls);
    assert calls[0].step <= m;
    ReplayRepresents(calls);
    ChronicleStep(calls);
  }

  lemma {:induction false} FirstMeaning(calls: seq<Call>, s: nat)
    requires forall k | 0 <= k < |calls| :: calls[k].step >= 1
    ensures FirstOf(Accepted(calls, s), Lookup(Chronicle(calls).first, s))
  {
    ChronicleMeaning(calls, s);
  }

  lemma {:induction false} MaximumMeaning(calls: seq<Call>, s: nat)
    requires forall k | 0 <= k < |calls| :: calls[k].step >= 1
    ensures MaximumOf(Accepted(calls, s), Lookup(Chronicle(calls).agg, s))
  {
    ChronicleMeaning(calls, s);
  }

  /** The step a register reports never goes back, whatever is recorded later. */
  lemma {:induction false} StepsNeverDecrease(calls: seq<Call>, more: seq<Call>)
    ensures Replay(calls).step <= Replay(calls + more).step
    decreases |more|
  {
    if more == [] {
      assert calls + more == calls;
    } else {
      var n := |more| - 1;
      StepsNeverDecrease(calls, more[..n]);
      assert (calls + more)[..|calls + more| - 1] == calls + more[..n];
    }
  }
}
