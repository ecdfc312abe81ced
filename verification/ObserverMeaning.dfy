/** What else the observer keeps, as its whole history of samples says it: the counters, when a
    replica was first seen, and the log of its transitions. */
module ObserverMeaning {
  import opened Proposals
  import opened Chain
  import opened Observer

  /** Sample `k` was compared: another replica's sample was the first at its height. */
  ghost predicate Compared(samples: seq<Sample>, k: int) {
    0 <= k < |samples| && exists i :: i < k && Opposes(samples, i, k)
  }

  ghost predicate Opposes(samples: seq<Sample>, i: int, k: int)
    requires 0 <= k < |samples|
  {
    FirstAt(samples, i, samples[k].state.n) && samples[i].replica != samples[k].replica
  }

  ghost function ComparedOnes(samples: seq<Sample>): set<int> {
    set k | 0 <= k < |samples| && Compared(samples, k)
  }

  lemma {:induction false} FirstBefore(samples: seq<Sample>, s: Sample, i: int, n: nat)
    requires i < |samples|
    ensures FirstAt(samples + [s], i, n) <==> FirstAt(samples, i, n)
  {
    if FirstAt(samples + [s], i, n) {
      forall j | 0 <= j <= i ensures samples[j] == (samples + [s])[j] {
      }
    }
    if FirstAt(samples, i, n) {
      FirstStays(samples, s, i, n);
    }
  }

  lemma {:induction false} ComparedStays(samples: seq<Sample>, s: Sample, k: int)
    requires 0 <= k < |samples|
    ensures Compared(samples + [s], k) <==> Compared(samples, k)
  {
    hide FirstAt;
    assert (samples + [s])[k] == samples[k];
    forall i | 0 <= i < k
      ensures Opposes(samples + [s], i, k) <==> Opposes(samples, i, k)
    {
      FirstBefore(samples, s, i, samples[k].state.n);
      assert (samples + [s])[i] == samples[i];
    }
    OpposesAtLeastZero(samples, k);
    OpposesAtLeastZero(samples + [s], k);
  }

  lemma {:induction false} OpposesAtLeastZero(samples: seq<Sample>, k: int)
    requires 0 <= k < |samples|
    ensures forall i | Opposes(samples, i, k) :: 0 <= i
  {
  }

  /** The newcomer is compared exactly when the witness at its height is another replica. */
  lemma {:induction false} NewlyCompared(samples: seq<Sample>, s: Sample, w: map<nat, (nat, ChainHash.Word)>)
    requires WitnessesOk(samples, w)
    ensures Compared(samples + [s], |samples|) <==> s.state.n in w && w[s.state.n].0 != s.replica
  {
    var all, k, n := samples + [s], |samples|, s.state.n;
    if n in w {
      var i :| FirstAt(samples, i, n) && w[n] == (samples[i].replica, samples[i].state.h);
      FirstStays(samples, s, i, n);
      assert all[i] == samples[i];
      if w[n].0 != s.replica {
        assert Opposes(all, i, k);
      } else if j :| j < k && Opposes(all, j, k) {
        FirstIsUnique(all, i, j, n);
        assert false;
      }
    } else {
      forall j | 0 <= j < k ensures all[j].state.n != n {
        assert all[j] == samples[j];
      }
      OpposesAtLeastZero(all, k);
    }
  }

  lemma {:induction false} ComparedGrow(samples: seq<Sample>, s: Sample)
    ensures |ComparedOnes(samples + [s])|
         == |ComparedOnes(samples)| + if Compared(samples + [s], |samples|) then 1 else 0
  {
    hide Compared;
    var all, k := samples + [s], |samples|;
    forall j | 0 <= j < k ensures Compared(all, j) <==> Compared(samples, j) {
      ComparedStays(samples, s, j);
    }
    assert ComparedOnes(all) == ComparedOnes(samples) + if Compared(all, k) then {k} else {};
  }

  lemma {:induction false} ObservedNext(samples: seq<Sample>, cap: nat)
    requires cap > 0 && samples != []
    ensures var st := ObservedAll(samples[..|samples| - 1], cap);
            ObservedAll(samples, cap) == Observed(st, samples[|samples| - 1], cap)
  {
  }

  /** The counters count: every sample, and every comparison. */
  lemma {:induction false} CountsMeaning(samples: seq<Sample>, cap: nat)
    requires cap > 0
    ensures ObservedAll(samples, cap).samples == |samples|
    ensures ObservedAll(samples, cap).comparisons == |ComparedOnes(samples)|
  {
    if samples == [] {
      assert ComparedOnes(samples) == {};
    } else {
      ObservedNext(samples, cap);
      hide ObservedAll, Compared, ComparedOnes, WitnessesOk, Advanced, DivergencesAfter;
      var before, s := samples[..|samples| - 1], samples[|samples| - 1];
      CountsMeaning(before, cap);
      WitnessesMeaning(before, cap);
      assert samples == before + [s];
      NewlyCompared(before, s, ObservedAll(before, cap).witnesses);
      ComparedGrow(before, s);
    }
  }

  // ----------------------------------------------------------------------------- one replica

  /** The highest state replica `r` has shown, the first of that height. */
  function Highest(samples: seq<Sample>, r: nat): Option<ChainState> {
    if samples == [] then None
    else
      var h, s := Highest(samples[..|samples| - 1], r), samples[|samples| - 1];
      if s.replica == r && (h.None? || s.state.n > h.value.n) then Some(s.state) else h
  }

  /** Every single step up that replica `r` has shown along with the command behind it. */
  function Climbs(samples: seq<Sample>, r: nat): seq<Transition> {
    if samples == [] then []
    else
      var before, s := samples[..|samples| - 1], samples[|samples| - 1];
      var h := Highest(before, r);
      Climbs(before, r)
      + if s.replica == r && h.Some? && s.state.n == h.value.n + 1 && s.commandDigest.Some?
        then [Transition(h.value, s.state, s.commandDigest.value)] else []
  }

  /** `kept` is what is left of `all` when only the newest `cap` are kept. */
  ghost predicate NewestOf<T>(kept: seq<T>, all: seq<T>, cap: nat) {
    && |kept| <= |all| && kept == all[|all| - |kept|..]
    && |kept| == if |all| <= cap then |all| else cap
  }

  lemma {:induction false} NewestPushed<T>(kept: seq<T>, all: seq<T>, cap: nat, t: T)
    requires cap > 0 && NewestOf(kept, all, cap)
    ensures NewestOf((if |kept| == cap then kept[1..] else kept) + [t], all + [t], cap)
    ensures |kept| == cap <==> |all + [t]| > cap
  {
  }

  ghost predicate LogOk(samples: seq<Sample>, cap: nat, r: nat, replicas: map<nat, View>) {
    && (r in replicas <==> Highest(samples, r).Some?)
    && (r in replicas ==>
          && Some(replicas[r].latest) == Highest(samples, r)
          && NewestOf(replicas[r].transitions, Climbs(samples, r), cap)
          && (replicas[r].truncated <==> |Climbs(samples, r)| > cap)
          && FirstSeen(samples, r, replicas[r].firstSeenAt))
    && (r !in replicas ==> Climbs(samples, r) == [])
  }

  lemma {:induction false} LogStays(samples: seq<Sample>, cap: nat, r: nat, replicas: map<nat, View>, v: View)
    requires samples != [] && samples[|samples| - 1].replica != r && LogOk(samples[..|samples| - 1], cap, r, replicas)
    ensures LogOk(samples, cap, r, replicas[samples[|samples| - 1].replica := v])
  {
    hide FirstSeen, NewestOf;
    assert Climbs(samples, r) == Climbs(samples[..|samples| - 1], r);
    if r in replicas {
      SeenStays(samples, r, replicas[r].firstSeenAt);
    }
  }

  lemma {:induction false} LogStarts(samples: seq<Sample>, cap: nat, r: nat, replicas: map<nat, View>)
    requires cap > 0 && samples != [] && samples[|samples| - 1].replica == r
    requires r !in replicas && LogOk(samples[..|samples| - 1], cap, r, replicas)
    ensures LogOk(samples, cap, r, replicas[r := Advanced(Seen(replicas, samples[|samples| - 1]), samples[|samples| - 1], cap)])
  {
    hide FirstSeen, NewestOf;
    NothingKept<Transition>(cap);
    var before := samples[..|samples| - 1];
    NeverSeen(before, r);
    forall j | 0 <= j < |before| ensures samples[j].replica != r {
      assert samples[j] == before[j];
    }
    SeenNow(samples, r);
  }

  lemma {:induction false} LogGrows(samples: seq<Sample>, cap: nat, r: nat, replicas: map<nat, View>)
    requires cap > 0 && samples != [] && samples[|samples| - 1].replica == r
    requires r in replicas && LogOk(samples[..|samples| - 1], cap, r, replicas)
    ensures LogOk(samples, cap, r, replicas[r := Advanced(Seen(replicas, samples[|samples| - 1]), samples[|samples| - 1], cap)])
  {
    hide FirstSeen, NewestOf;
    var before, s, v := samples[..|samples| - 1], samples[|samples| - 1], replicas[r];
    SeenStays(samples, r, v.firstSeenAt);
    if Logs(v, s) {
      NewestPushed(v.transitions, Climbs(before, r), cap, Transition(v.latest, s.state, s.commandDigest.value));
    } else {
      assert Climbs(samples, r) == Climbs(before, r);
    }
  }

  /** A replica's log is its climbs, the newest up to the cap, and it says so when older ones
      were dropped; and the replica was first seen at its first sample. */
  lemma {:induction false} LogMeaning(samples: seq<Sample>, cap: nat, r: nat)
    requires cap > 0
    ensures LogOk(samples, cap, r, ObservedAll(samples, cap).replicas)
  {
    if samples == [] {
    } else {
      ObservedNext(samples, cap);
      hide ObservedAll, LogOk, Advanced, Seen, DivergencesAfter;
      var before, s := samples[..|samples| - 1], samples[|samples| - 1];
      LogMeaning(before, cap, r);
      var replicas := ObservedAll(before, cap).replicas;
      if s.replica != r {
        LogStays(samples, cap, r, replicas, Advanced(Seen(replicas, s), s, cap));
      } else if r in replicas {
        LogGrows(samples, cap, r, replicas);
      } else {
        LogStarts(samples, cap, r, replicas);
      }
    }
  }

  lemma {:induction false} NothingKept<T>(cap: nat)
    ensures NewestOf<T>([], [], cap)
  {
  }

  ghost predicate FirstSeen(samples: seq<Sample>, r: nat, at: nat) {
    exists i :: 0 <= i < |samples| && samples[i].replica == r && samples[i].observedAt == at
                && forall j | 0 <= j < i :: samples[j].replica != r
  }

  lemma {:induction false} SeenStays(samples: seq<Sample>, r: nat, at: nat)
    requires samples != [] && FirstSeen(samples[..|samples| - 1], r, at)
    ensures FirstSeen(samples, r, at)
  {
    var before := samples[..|samples| - 1];
    var i :| 0 <= i < |before| && before[i].replica == r && before[i].observedAt == at
             && forall j | 0 <= j < i :: before[j].replica != r;
    forall j | 0 <= j <= i ensures samples[j] == before[j] {
    }
  }

  lemma {:induction false} NeverSeen(samples: seq<Sample>, r: nat)
    requires Highest(samples, r).None?
    ensures forall j | 0 <= j < |samples| :: samples[j].replica != r
  {
    if samples == [] {
    } else {
      var before := samples[..|samples| - 1];
      NeverSeen(before, r);
      forall j | 0 <= j < |before| ensures samples[j] == before[j] {
      }
    }
  }

  lemma {:induction false} SeenNow(samples: seq<Sample>, r: nat)
    requires samples != [] && samples[|samples| - 1].replica == r
    requires forall j | 0 <= j < |samples| - 1 :: samples[j].replica != r
    ensures FirstSeen(samples, r, samples[|samples| - 1].observedAt)
  {
  }
}
