/** The divergence observer: it compares every sample with the first one seen at the same
    height, in whatever order samples arrive. */
module Observer {
  import opened Proposals
  import opened ChainHash
  import opened Chain

  datatype Sample = Sample(replica: nat, observedAt: nat, state: ChainState, commandDigest: Option<Word>)

  datatype Divergence = Divergence(n: nat, first: (nat, Word), other: (nat, Word), observedAt: nat)

  datatype Stall = Stall(replica: nat, stuckAt: ChainState, lastProgressAt: nat, now: nat, clusterFrontier: nat)

  datatype View = View(
    latest: ChainState, firstSeenAt: nat, lastProgressAt: nat, transitions: seq<Transition>, truncated: bool)

  datatype State = State(
    witnesses: map<nat, (nat, Word)>,
    replicas: map<nat, View>,
    divergences: map<(nat, nat), Divergence>,
    comparisons: nat,
    samples: nat)

  const BLANK: State := State(map[], map[], map[], 0, 0)

  /** The sample is from another replica than the witness at its height and disagrees with it. */
  predicate Contradicts(witnesses: map<nat, (nat, Word)>, s: Sample) {
    s.state.n in witnesses && witnesses[s.state.n].0 != s.replica && witnesses[s.state.n].1 != s.state.h
  }

  function DivergencesAfter(st: State, s: Sample): map<(nat, nat), Divergence> {
    var key := (s.state.n, s.replica);
    if Contradicts(st.witnesses, s) && key !in st.divergences
    then st.divergences[key := Divergence(s.state.n, st.witnesses[s.state.n], (s.replica, s.state.h), s.observedAt)]
    else st.divergences
  }

  /** The sample is the replica's very next state and says which command led to it. */
  predicate Logs(v: View, s: Sample) {
    s.state.n == v.latest.n + 1 && s.commandDigest.Some?
  }

  /** A cap of zero leaves no room for a transition that has to be logged. */
  function Advanced(v: View, s: Sample, cap: nat): View
    requires cap > 0 || !Logs(v, s)
  {
    if s.state.n <= v.latest.n then v
    else
      var logged := Logs(v, s);
      var dropped := logged && |v.transitions| == cap;
      var kept := if dropped then v.transitions[1..] else v.transitions;
      View(s.state, v.firstSeenAt, s.observedAt,
           if logged then kept + [Transition(v.latest, s.state, s.commandDigest.value)] else kept,
           v.truncated || dropped)
  }

  function Seen(v: map<nat, View>, s: Sample): View {
    if s.replica in v then v[s.replica] else View(s.state, s.observedAt, s.observedAt, [], false)
  }

  function Observed(st: State, s: Sample, cap: nat): State
    requires cap > 0 || !Logs(Seen(st.replicas, s), s)
  {
    State(
      if s.state.n in st.witnesses then st.witnesses else st.witnesses[s.state.n := (s.replica, s.state.h)],
      st.replicas[s.replica := Advanced(Seen(st.replicas, s), s, cap)],
      DivergencesAfter(st, s),
      if s.state.n in st.witnesses && st.witnesses[s.state.n].0 != s.replica then st.comparisons + 1 else st.comparisons,
      st.samples + 1)
  }

  class Observer {
    const transitionCap: nat
    var witnesses: map<nat, (nat, Word)>
    var replicas: map<nat, View>
    var divergences: map<(nat, nat), Divergence>
    var comparisons: nat
    var samples: nat

    function Contents(): State
      reads this
    {
      State(witnesses, replicas, divergences, comparisons, samples)
    }

    ghost predicate Valid()
      reads this
    {
      transitionCap == 0 ==> forall r | r in replicas :: replicas[r].transitions == []
    }

    constructor (cap: nat)
      ensures Valid() && transitionCap == cap && Contents() == BLANK
    {
      transitionCap := cap;
      witnesses, replicas, divergences := map[], map[], map[];
      comparisons, samples := 0, 0;
    }

    /** Take in one sample. It fails exactly when a transition must be logged and the cap is
        zero: room would have to be made by dropping from an empty log. */
    method Observe(s: Sample) returns (ok: bool)
      requires Valid()
      modifies this
      ensures ok <==> transitionCap > 0 || !Logs(Seen(old(replicas), s), s)
      ensures ok ==> Valid() && Contents() == Observed(old(Contents()), s, transitionCap)
    {
      samples := samples + 1;
      if s.state.n in witnesses {
        var (who, hash) := witnesses[s.state.n];
        if who != s.replica {
          comparisons := comparisons + 1;
          if hash != s.state.h {
            var key := (s.state.n, s.replica);
            if key !in divergences {
              divergences := divergences[key := Divergence(s.state.n, (who, hash), (s.replica, s.state.h), s.observedAt)];
            }
          }
        }
      } else {
        witnesses := witnesses[s.state.n := (s.replica, s.state.h)];
      }
      var view := if s.replica in replicas then replicas[s.replica]
                  else View(s.state, s.observedAt, s.observedAt, [], false);
      if s.state.n > view.latest.n {
        if s.state.n == view.latest.n + 1 && s.commandDigest.Some? {
          var transitions, truncated := view.transitions, view.truncated;
          if |transitions| == transitionCap {
            if transitions == [] { return false; }
            transitions, truncated := transitions[1..], true;
          }
          transitions := transitions + [Transition(view.latest, s.state, s.commandDigest.value)];
          view := View(view.latest, view.firstSeenAt, view.lastProgressAt, transitions, truncated);
        }
        view := View(s.state, view.firstSeenAt, s.observedAt, view.transitions, view.truncated);
      }
      replicas := replicas[s.replica := view];
      ok := true;
    }

    /** The highest height any replica has shown. */
    method ClusterFrontier() returns (frontier: nat)
      ensures Frontier(Contents(), frontier)
    {
      frontier := 0;
      var todo := replicas.Keys;
      ghost var done: set<nat> := {};
      while todo != {}
        invariant todo + done == replicas.Keys
        invariant forall r | r in done :: replicas[r].latest.n <= frontier
        invariant frontier == 0 || exists r :: r in done && replicas[r].latest.n == frontier
      {
        var r :| r in todo;
        if replicas[r].latest.n > frontier {
          frontier := replicas[r].latest.n;
        }
        todo, done := todo - {r}, done + {r};
      }
    }

    /** The replicas behind the frontier that have not moved for more than `budget`. */
    method Stalls(now: nat, budget: nat) returns (stalls: map<nat, Stall>)
      ensures forall r :: r in stalls <==>
                r in replicas && now - replicas[r].lastProgressAt > budget
                && exists q :: q in replicas && replicas[q].latest.n > replicas[r].latest.n
      ensures forall r | r in stalls ::
                Frontier(Contents(), stalls[r].clusterFrontier)
                && stalls[r] == Stall(r, replicas[r].latest, replicas[r].lastProgressAt, now, stalls[r].clusterFrontier)
    {
      var frontier := ClusterFrontier();
      stalls := map r | r in replicas && replicas[r].latest.n < frontier
                        && SaturatingSub(now, replicas[r].lastProgressAt) > budget ::
                  Stall(r, replicas[r].latest, replicas[r].lastProgressAt, now, frontier);
    }
  }

  function SaturatingSub(a: nat, b: nat): nat {
    if a >= b then a - b else 0
  }

  ghost predicate Frontier(st: State, frontier: nat) {
    && (forall r | r in st.replicas :: st.replicas[r].latest.n <= frontier)
    && (frontier == 0 || exists r :: r in st.replicas && st.replicas[r].latest.n == frontier)
  }

  function ObservedAll(samples: seq<Sample>, cap: nat): State
    requires cap > 0
  {
    if samples == [] then BLANK
    else Observed(ObservedAll(samples[..|samples| - 1], cap), samples[|samples| - 1], cap)
  }

  // ------------------------------------------------------- what the whole history says

  /** Sample `i` is the first at its height. */
  ghost predicate FirstAt(samples: seq<Sample>, i: int, n: nat) {
    0 <= i < |samples| && samples[i].state.n == n && forall j | 0 <= j < i :: samples[j].state.n != n
  }

  ghost predicate WitnessesOk(samples: seq<Sample>, witnesses: map<nat, (nat, Word)>) {
    && (forall n | n in witnesses :: WitnessAt(samples, n, witnesses[n]))
    && (forall i | 0 <= i < |samples| :: samples[i].state.n in witnesses)
  }

  ghost predicate WitnessAt(samples: seq<Sample>, n: nat, w: (nat, Word)) {
    exists i :: FirstAt(samples, i, n) && w == (samples[i].replica, samples[i].state.h)
  }

  /** Samples `i` and `j` are of different replicas, at one height, with different hashes. */
  ghost predicate Conflict(samples: seq<Sample>, i: int, j: int) {
    && 0 <= i < |samples| && 0 <= j < |samples|
    && samples[i].replica != samples[j].replica
    && samples[i].state.n == samples[j].state.n && samples[i].state.h != samples[j].state.h
  }

  /** Sample `j` conflicts with the first one at its height. */
  ghost predicate AgainstFirst(samples: seq<Sample>, i: int, j: int, n: nat, r: nat) {
    FirstAt(samples, i, n) && Conflict(samples, i, j) && samples[j].replica == r
  }

  lemma {:induction false} FirstStays(samples: seq<Sample>, s: Sample, i: int, n: nat)
    requires FirstAt(samples, i, n)
    ensures FirstAt(samples + [s], i, n)
  {
  }

  lemma {:induction false} WitnessesMeaning(samples: seq<Sample>, cap: nat)
    requires cap > 0
    ensures WitnessesOk(samples, ObservedAll(samples, cap).witnesses)
  {
    if samples == [] {
    } else {
      var k := |samples| - 1;
      var before, s := samples[..k], samples[k];
      WitnessesMeaning(before, cap);
      var w, w' := ObservedAll(before, cap).witnesses, ObservedAll(samples, cap).witnesses;
      assert samples == before + [s];
      forall n | n in w'
        ensures WitnessAt(samples, n, w'[n])
      {
        if n in w {
          var i :| FirstAt(before, i, n) && w[n] == (before[i].replica, before[i].state.h);
          FirstStays(before, s, i, n);
        } else {
          assert forall j | 0 <= j < k :: samples[j] == before[j] && before[j].state.n in w;
          assert FirstAt(samples, k, n);
        }
      }
      forall i | 0 <= i < |samples| ensures samples[i].state.n in w' {
        if i < k { assert samples[i] == before[i]; }
      }
    }
  }

  /** The divergence filed under a height and a replica names the first sample at that height
      and the earliest of that replica's that conflicts with it. */
  ghost predicate Filed(samples: seq<Sample>, n: nat, r: nat, d: Divergence) {
    exists i, j ::
      && AgainstFirst(samples, i, j, n, r)
      && (forall k | 0 <= k < j :: !AgainstFirst(samples, i, k, n, r))
      && d == Divergence(n, (samples[i].replica, samples[i].state.h),
                         (samples[j].replica, samples[j].state.h), samples[j].observedAt)
  }

  ghost predicate AnyAgainstFirst(samples: seq<Sample>, n: nat, r: nat) {
    exists i, j :: AgainstFirst(samples, i, j, n, r)
  }

  ghost predicate DivergencesOk(samples: seq<Sample>, divergences: map<(nat, nat), Divergence>) {
    && (forall n: nat, r: nat :: (n, r) in divergences <==> AnyAgainstFirst(samples, n, r))
    && (forall n: nat, r: nat | (n, r) in divergences :: Filed(samples, n, r, divergences[(n, r)]))
  }

  lemma {:induction false} FirstIsUnique(samples: seq<Sample>, i: int, j: int, n: nat)
    requires FirstAt(samples, i, n) && FirstAt(samples, j, n)
    ensures i == j
  {
  }

  lemma {:induction false} FirstWasThere(samples: seq<Sample>, s: Sample, i: int, j: int, n: nat)
    requires FirstAt(samples + [s], i, n) && 0 <= j < |samples| && samples[j].state.n == n
    ensures FirstAt(samples, i, n)
  {
    assert (samples + [s])[j] == samples[j];
    assert i <= j;
    forall k | 0 <= k < i ensures samples[k].state.n != n {
      assert (samples + [s])[k] == samples[k];
    }
  }

  /** A new sample adds a conflict with the first exactly when it contradicts the witness. */
  lemma {:induction false} NewConflict(samples: seq<Sample>, s: Sample, w: map<nat, (nat, Word)>, n: nat, r: nat)
    requires WitnessesOk(samples, w)
    ensures AnyAgainstFirst(samples + [s], n, r)
       <==> AnyAgainstFirst(samples, n, r) || (Contradicts(w, s) && s.state.n == n && s.replica == r)
  {
    var all, k := samples + [s], |samples|;
    if AnyAgainstFirst(samples, n, r) {
      var i, j :| AgainstFirst(samples, i, j, n, r);
      FirstStays(samples, s, i, n);
      assert AgainstFirst(all, i, j, n, r);
    }
    if Contradicts(w, s) && s.state.n == n && s.replica == r {
      var i := ContradictsFirst(samples, s, w);
    }
    if AnyAgainstFirst(all, n, r) {
      var i, j :| AgainstFirst(all, i, j, n, r);
      assert i <= j && i != j;
      assert i < k && all[i] == samples[i];
      FirstWasThere(samples, s, i, i, n);
      if j < k {
        assert AgainstFirst(samples, i, j, n, r);
      } else {
        var i' :| FirstAt(samples, i', n) && w[n] == (samples[i'].replica, samples[i'].state.h);
        FirstIsUnique(samples, i, i', n);
      }
    }
  }

  lemma {:induction false} ContradictsFirst(samples: seq<Sample>, s: Sample, w: map<nat, (nat, Word)>) returns (i: int)
    requires WitnessesOk(samples, w) && Contradicts(w, s)
    ensures AgainstFirst(samples + [s], i, |samples|, s.state.n, s.replica)
    ensures w[s.state.n] == (samples[i].replica, samples[i].state.h)
  {
    var n := s.state.n;
    i :| FirstAt(samples, i, n) && w[n] == (samples[i].replica, samples[i].state.h);
    FirstStays(samples, s, i, n);
  }

  lemma {:induction false} FiledStays(samples: seq<Sample>, s: Sample, n: nat, r: nat, d: Divergence)
    requires Filed(samples, n, r, d)
    ensures Filed(samples + [s], n, r, d)
  {
    var all := samples + [s];
    var i, j :| AgainstFirst(samples, i, j, n, r)
                && (forall k | 0 <= k < j :: !AgainstFirst(samples, i, k, n, r))
                && d == Divergence(n, (samples[i].replica, samples[i].state.h),
                                   (samples[j].replica, samples[j].state.h), samples[j].observedAt);
    FirstStays(samples, s, i, n);
    assert AgainstFirst(all, i, j, n, r);
    forall k | 0 <= k < j ensures !AgainstFirst(all, i, k, n, r) {
      assert !AgainstFirst(samples, i, k, n, r);
    }
  }

  lemma {:induction false} NewlyFiled(samples: seq<Sample>, s: Sample, w: map<nat, (nat, Word)>, d: Divergence)
    requires WitnessesOk(samples, w) && Contradicts(w, s) && !AnyAgainstFirst(samples, s.state.n, s.replica)
    requires d == Divergence(s.state.n, w[s.state.n], (s.replica, s.state.h), s.observedAt)
    ensures Filed(samples + [s], s.state.n, s.replica, d)
  {
    var n, r, all, j := s.state.n, s.replica, samples + [s], |samples|;
    var i := ContradictsFirst(samples, s, w);
    forall k | 0 <= k < j ensures !AgainstFirst(all, i, k, n, r) {
      if AgainstFirst(all, i, k, n, r) {
        assert all[i] == samples[i];
        FirstWasThere(samples, s, i, i, n);
        assert AgainstFirst(samples, i, k, n, r);
        assert AnyAgainstFirst(samples, n, r);
      }
    }
    assert all[i] == samples[i];
  }

  lemma {:induction false} DivergencesStep(samples: seq<Sample>, st: State, s: Sample)
    requires WitnessesOk(samples, st.witnesses) && DivergencesOk(samples, st.divergences)
    ensures DivergencesOk(samples + [s], DivergencesAfter(st, s))
  {
    var d, d' := st.divergences, DivergencesAfter(st, s);
    forall n: nat, r: nat
      ensures (n, r) in d' <==> AnyAgainstFirst(samples + [s], n, r)
      ensures (n, r) in d' ==> Filed(samples + [s], n, r, d'[(n, r)])
    {
      NewConflict(samples, s, st.witnesses, n, r);
      if (n, r) in d {
        FiledStays(samples, s, n, r, d[(n, r)]);
      } else if (n, r) in d' {
        NewlyFiled(samples, s, st.witnesses, d'[(n, r)]);
      }
    }
  }

  /** The recorded divergences, over any samples in any order: one per height and replica that
      ever conflicted with the first sample at that height, dated by the earliest conflict. */
  lemma {:induction false} DivergencesMeaning(samples: seq<Sample>, cap: nat)
    requires cap > 0
    ensures DivergencesOk(samples, ObservedAll(samples, cap).divergences)
  {
    if samples == [] {
    } else {
      var k := |samples| - 1;
      var before, s := samples[..k], samples[k];
      WitnessesMeaning(before, cap);
      DivergencesMeaning(before, cap);
      DivergencesStep(before, ObservedAll(before, cap), s);
      assert samples == before + [s];
    }
  }

  /** A replica's view is the first of its samples to reach the highest height it has shown. */
  ghost predicate ViewOk(samples: seq<Sample>, r: nat, v: View) {
    exists i ::
      && Peak(samples, r, i)
      && v.latest == samples[i].state && v.lastProgressAt == samples[i].observedAt
  }

  ghost predicate Peak(samples: seq<Sample>, r: nat, i: int) {
    && 0 <= i < |samples| && samples[i].replica == r
    && (forall j | 0 <= j < |samples| && samples[j].replica == r :: samples[j].state.n <= samples[i].state.n)
    && (forall j | 0 <= j < i && samples[j].replica == r :: samples[j].state.n < samples[i].state.n)
  }

  ghost predicate Appears(samples: seq<Sample>, r: nat) {
    exists i :: 0 <= i < |samples| && samples[i].replica == r
  }

  lemma {:induction false} ViewStep(samples: seq<Sample>, s: Sample, r: nat, v: View, cap: nat)
    requires cap > 0 && ViewOk(samples, r, v)
    ensures ViewOk(samples + [s], r, if s.replica == r then Advanced(v, s, cap) else v)
  {
    var all := samples + [s];
    var i :| Peak(samples, r, i) && v.latest == samples[i].state && v.lastProgressAt == samples[i].observedAt;
    forall j | 0 <= j < |samples| ensures all[j] == samples[j] {
    }
    if s.replica == r && s.state.n > v.latest.n {
      assert Peak(all, r, |samples|);
    } else {
      assert Peak(all, r, i);
    }
  }

  /** What the observer keeps about a replica is what its samples say, so a stall is reported
      exactly for replicas that really are behind and really have not moved. */
  lemma {:induction false} ViewsMeaning(samples: seq<Sample>, cap: nat, r: nat)
    requires cap > 0
    ensures var replicas := ObservedAll(samples, cap).replicas;
            && (r in replicas <==> Appears(samples, r))
            && (r in replicas ==> ViewOk(samples, r, replicas[r]))
  {
    if samples == [] {
    } else {
      var k := |samples| - 1;
      var before, s := samples[..k], samples[k];
      ViewsMeaning(before, cap, r);
      assert samples == before + [s];
      var old' := ObservedAll(before, cap).replicas;
      if s.replica == r && r !in old' {
        forall j | 0 <= j < k ensures samples[j].replica != r {
          assert samples[j] == before[j];
        }
        assert Peak(samples, r, k);
      } else if r in old' {
        ViewStep(before, s, r, old'[r], cap);
        var i :| 0 <= i < |before| && before[i].replica == r;
        assert samples[i].replica == r;
      }
    }
  }

  // ------------------------------------------------------------- soundness, completeness

  /** No replica ever shows two hashes at one height. */
  ghost predicate SelfConsistent(samples: seq<Sample>) {
    forall i, j | 0 <= i < |samples| && 0 <= j < |samples|
                  && samples[i].replica == samples[j].replica && samples[i].state.n == samples[j].state.n ::
      samples[i].state.h == samples[j].state.h
  }

  lemma {:induction false} FirstExists(samples: seq<Sample>, k: nat) returns (i: int)
    requires k < |samples|
    ensures FirstAt(samples, i, samples[k].state.n)
  {
    i := 0;
    while samples[i].state.n != samples[k].state.n
      invariant 0 <= i <= k && forall j | 0 <= j < i :: samples[j].state.n != samples[k].state.n
      decreases k - i
    {
      i := i + 1;
    }
  }

  /** If no replica contradicts itself, divergences are reported exactly when some two
      replicas really differ at one height, whatever the order of arrival. */
  lemma {:induction false} ObserverIsExact(samples: seq<Sample>, cap: nat)
    requires cap > 0
    requires SelfConsistent(samples)
    ensures ObservedAll(samples, cap).divergences != map[] <==> exists i, j :: Conflict(samples, i, j)
  {
    var d := ObservedAll(samples, cap).divergences;
    DivergencesMeaning(samples, cap);
    if i, j :| Conflict(samples, i, j) {
      var n := samples[i].state.n;
      var f := FirstExists(samples, i);
      var k := if samples[f].replica != samples[j].replica && samples[f].state.h != samples[j].state.h then j else i;
      assert AgainstFirst(samples, f, k, n, samples[k].replica);
      assert AnyAgainstFirst(samples, n, samples[k].replica);
      assert (n, samples[k].replica) in d;
    }
    if d != map[] {
      var key :| key in d;
      assert (key.0, key.1) in d && AnyAgainstFirst(samples, key.0, key.1);
      var i, j :| AgainstFirst(samples, i, j, key.0, key.1);
      assert Conflict(samples, i, j);
    }
  }

  /** Nothing is reported at height `n`. */
  ghost predicate Silent(st: State, n: nat) {
    forall r: nat :: (n, r) !in st.divergences
  }

  /** Whether or not replicas contradict themselves: a height goes unreported exactly when
      every sample there of a replica other than the first one's carries the first one's hash. */
  lemma {:induction false} SilentIff(samples: seq<Sample>, cap: nat, n: nat, f: int)
    requires cap > 0 && FirstAt(samples, f, n)
    ensures Silent(ObservedAll(samples, cap), n)
       <==> forall k | 0 <= k < |samples| && samples[k].state.n == n && samples[k].replica != samples[f].replica ::
              samples[k].state.h == samples[f].state.h
  {
    var d := ObservedAll(samples, cap).divergences;
    DivergencesMeaning(samples, cap);
    forall k | 0 <= k < |samples| && samples[k].state.n == n && samples[k].replica != samples[f].replica
               && samples[k].state.h != samples[f].state.h
      ensures (n, samples[k].replica) in d
    {
      assert AgainstFirst(samples, f, k, n, samples[k].replica);
      assert AnyAgainstFirst(samples, n, samples[k].replica);
    }
    forall r: nat | (n, r) in d
      ensures exists k :: Conflict(samples, f, k)
    {
      assert AnyAgainstFirst(samples, n, r);
      var i, k :| AgainstFirst(samples, i, k, n, r);
      FirstIsUnique(samples, i, f, n);
      assert Conflict(samples, f, k);
    }
  }

  /** A replica that contradicts itself can hide a real conflict: the later of its two hashes
      is never compared with anyone's. */
  lemma {:induction false} SelfContradictionHides(cap: nat)
    requires cap > 0
    ensures var samples := [Sample(0, 1, ChainState(7, 10), None),
                            Sample(1, 2, ChainState(7, 10), None),
                            Sample(0, 3, ChainState(7, 11), None)];
            Conflict(samples, 1, 2) && ObservedAll(samples, cap).divergences == map[]
  {
    var a, b, c := Sample(0, 1, ChainState(7, 10), None), Sample(1, 2, ChainState(7, 10), None), Sample(0, 3, ChainState(7, 11), None);
    var samples := [a, b, c];
    assert samples[..2] == [a, b] && [a, b][..1] == [a] && [a][..0] == [];
    assert ObservedAll([a], cap) == Observed(BLANK, a, cap);
    assert ObservedAll([a, b], cap) == Observed(ObservedAll([a], cap), b, cap);
  }

  /** Every sample is the chain over a prefix of one log. */
  ghost predicate Healthy(samples: seq<Sample>, log: seq<Command>) {
    forall i | 0 <= i < |samples| ::
      samples[i].state.n <= |log| && samples[i].state == FromLog(log[..samples[i].state.n])
  }

  /** Replicas whose logs are prefixes of one another are never reported. */
  lemma {:induction false} HealthyIsQuiet(samples: seq<Sample>, log: seq<Command>, cap: nat)
    requires cap > 0
    requires Healthy(samples, log)
    ensures ObservedAll(samples, cap).divergences == map[]
  {
    hide FromLog;
    forall i, j | 0 <= i < |samples| && 0 <= j < |samples| && samples[i].state.n == samples[j].state.n
      ensures samples[i].state.h == samples[j].state.h
    {
      assert samples[i].state == samples[j].state;
    }
    ObserverIsExact(samples, cap);
  }
}
