/** Sampling a replica's published chain across polls, each checkpoint once. */
module Sampling {
  import opened Proposals
  import opened ChainHash
  import opened Arithmetic
  import opened Chain
  import opened Observer

  /** The checkpoints past the cursor, and where the cursor then stands. */
  function PastCursor(checkpoints: seq<ChainState>, cursor: nat): (seq<ChainState>, nat) {
    if checkpoints == [] then ([], cursor)
    else
      var (before, c) := PastCursor(checkpoints[..|checkpoints| - 1], cursor);
      var last := checkpoints[|checkpoints| - 1];
      if last.n > c then (before + [last], last.n) else (before, c)
  }

  function AsSamples(replica: nat, at: nat, states: seq<ChainState>): seq<Sample> {
    seq(|states|, k requires 0 <= k < |states| => Sample(replica, at, states[k], None))
  }

  /** Checkpoint `k` is above the cursor and above every checkpoint before it. */
  ghost predicate Tops(checkpoints: seq<ChainState>, k: int, cursor: nat)
    requires 0 <= k < |checkpoints|
  {
    checkpoints[k].n > cursor && forall j | 0 <= j < k :: checkpoints[j].n < checkpoints[k].n
  }

  lemma {:induction false} PastCursorSound(checkpoints: seq<ChainState>, cursor: nat)
    ensures var (emitted, top) := PastCursor(checkpoints, cursor);
            && cursor <= top
            && (forall i | 0 <= i < |emitted| :: emitted[i] in checkpoints && cursor < emitted[i].n <= top)
            && (forall i, j | 0 <= i < j < |emitted| :: emitted[i].n < emitted[j].n)
  {
    if checkpoints == [] {
    } else {
      PastCursorSound(checkpoints[..|checkpoints| - 1], cursor);
    }
  }

  lemma {:induction false} PastCursorComplete(checkpoints: seq<ChainState>, cursor: nat)
    ensures var (emitted, top) := PastCursor(checkpoints, cursor);
            && (forall k | 0 <= k < |checkpoints| :: checkpoints[k].n <= top)
            && (forall k | 0 <= k < |checkpoints| && Tops(checkpoints, k, cursor) :: checkpoints[k] in emitted)
            && (top == cursor || exists k :: 0 <= k < |checkpoints| && checkpoints[k].n == top)
  {
    if checkpoints == [] {
    } else {
      var n := |checkpoints| - 1;
      var before := checkpoints[..n];
      PastCursorComplete(before, cursor);
      var (emitted, top) := PastCursor(before, cursor);
      forall k | 0 <= k < n ensures checkpoints[k] == before[k] {
      }
      forall k | 0 <= k < |checkpoints| && Tops(checkpoints, k, cursor)
        ensures checkpoints[k] in PastCursor(checkpoints, cursor).0
      {
        if k < n {
          assert Tops(before, k, cursor);
          assert before[k] in emitted;
        } else if top != cursor {
          var j :| 0 <= j < n && before[j].n == top;
          assert checkpoints[j].n < checkpoints[n].n;
        }
      }
      if top != cursor {
        var j :| 0 <= j < n && before[j].n == top;
        assert checkpoints[j].n == top;
      }
    }
  }

  /** What a poll puts out: the checkpoints above the cursor in climbing order, none that tops
      all before it left out, and last of all the frontier; every sample is the replica's, of
      the time of the poll, and without a digest. */
  lemma {:induction false} EmittedMeaning(replica: nat, at: nat, frontier: ChainState, checkpoints: seq<ChainState>, cursor: nat)
    ensures var (emitted, top) := PastCursor(checkpoints, cursor);
            var samples := AsSamples(replica, at, emitted) + [Sample(replica, at, frontier, None)];
            && |samples| > 0 && samples[|samples| - 1].state == frontier
            && (forall i | 0 <= i < |samples| :: samples[i].replica == replica && samples[i].observedAt == at && samples[i].commandDigest.None?)
            && (forall i | 0 <= i < |samples| - 1 :: samples[i].state in checkpoints && cursor < samples[i].state.n <= top)
            && (forall i, j | 0 <= i < j < |samples| - 1 :: samples[i].state.n < samples[j].state.n)
            && (forall k | 0 <= k < |checkpoints| && Tops(checkpoints, k, cursor) :: Emits(samples, checkpoints[k]))
            && (forall k | 0 <= k < |checkpoints| :: checkpoints[k].n <= top)
            && (top == cursor || exists k :: 0 <= k < |checkpoints| && checkpoints[k].n == top)
  {
    PastCursorSound(checkpoints, cursor);
    PastCursorComplete(checkpoints, cursor);
    var emitted := PastCursor(checkpoints, cursor).0;
    var samples := AsSamples(replica, at, emitted) + [Sample(replica, at, frontier, None)];
    hide PastCursor, Tops;
    forall i | 0 <= i < |emitted| ensures samples[i] == Sample(replica, at, emitted[i], None) {
    }
    forall k | 0 <= k < |checkpoints| && Tops(checkpoints, k, cursor) ensures Emits(samples, checkpoints[k]) {
      var i :| 0 <= i < |emitted| && emitted[i] == checkpoints[k];
      assert samples[i].state == checkpoints[k];
    }
  }

  ghost predicate Emits(samples: seq<Sample>, state: ChainState) {
    exists i :: 0 <= i < |samples| - 1 && samples[i].state == state
  }

  /** The checkpoints not emitted yet, lowest first and each once, and then the frontier. */
  method SamplesFromChain(replica: nat, at: nat, frontier: ChainState, checkpoints: seq<ChainState>, emittedThrough: nat)
    returns (samples: seq<Sample>, emittedThrough': nat)
    ensures var (fresh', cursor) := PastCursor(checkpoints, emittedThrough);
            samples == AsSamples(replica, at, fresh') + [Sample(replica, at, frontier, None)] && emittedThrough' == cursor
  {
    samples, emittedThrough' := [], emittedThrough;
    for k := 0 to |checkpoints|
      invariant emittedThrough' == PastCursor(checkpoints[..k], emittedThrough).1
      invariant samples == AsSamples(replica, at, PastCursor(checkpoints[..k], emittedThrough).0)
    {
      assert checkpoints[..k + 1][..k] == checkpoints[..k];
      if checkpoints[k].n > emittedThrough' {
        samples := samples + [Sample(replica, at, checkpoints[k], None)];
        emittedThrough' := checkpoints[k].n;
      }
    }
    assert checkpoints[..|checkpoints|] == checkpoints;
    samples := samples + [Sample(replica, at, frontier, None)];
  }

  ghost predicate Climbing(states: seq<ChainState>) {
    forall i, j | 0 <= i < j < |states| :: states[i].n < states[j].n
  }

  /** On a table in chain order, what is emitted is the part above the cursor. */
  lemma {:induction false} PastCursorOfClimbing(states: seq<ChainState>, cursor: nat, k: nat)
    requires Climbing(states) && k <= |states|
    requires forall i | 0 <= i < k :: states[i].n <= cursor
    requires forall i | k <= i < |states| :: states[i].n > cursor
    ensures PastCursor(states, cursor) == (states[k..], if k == |states| then cursor else states[|states| - 1].n)
    decreases |states|
  {
    if states == [] {
    } else {
      var n := |states| - 1;
      if k <= n {
        PastCursorOfClimbing(states[..n], cursor, k);
        assert states[k..] == states[..n][k..] + [states[n]];
      } else {
        PastCursorOfClimbing(states[..n], cursor, n);
      }
    }
  }

  lemma {:induction false} CrossedHeight(every: nat, log: seq<Command>, i: nat)
    requires every >= 1 && i < |Crossed(every, log)|
    ensures Crossed(every, log)[i].n == (i + 1) * every
  {
    CheckpointMeaning(every, log, i);
  }

  lemma {:induction false} Higher(i: nat, j: nat, d: nat)
    requires d >= 1
    ensures i < j <==> i * d < j * d
  {
    if i < j { Steps(i, j, d); }
    if j < i { Steps(j, i, d); }
  }

  /** Where the cursor stands once everything `log` crosses has been polled. */
  function CursorFor(every: nat, log: seq<Command>): nat
    requires every >= 1
  {
    var k := |Crossed(every, log)|;
    NotNegative(k, every);
    k * every
  }

  lemma {:induction false} NotNegative(a: nat, b: nat)
    ensures a * b >= 0
  {
  }

  lemma {:induction false} CrossedPrefix(every: nat, before: seq<Command>, log: seq<Command>)
    requires every >= 1 && before <= log
    ensures Crossed(every, before) <= Crossed(every, log)
  {
    CrossedGrows(every, before, log[|before|..]);
    assert before + log[|before|..] == log;
  }

  /** One poll: the cursor stood at the end of what `before` had crossed, and the table is the
      one published for `log`. What comes out is the newest part of exactly the checkpoints
      crossed in between, and the cursor moves to the end of what `log` has crossed. */
  lemma {:induction false} PollEmitsNew(every: nat, before: seq<Command>, log: seq<Command>)
    requires every >= 1 && before <= log
    ensures |Crossed(every, before)| <= |Crossed(every, log)|
    ensures PastCursor(PublishedFor(every, log).table, CursorFor(every, before))
         == (Newest(Crossed(every, log)[|Crossed(every, before)|..], CHECKPOINT_RING_CAPACITY), CursorFor(every, log))
  {
    hide Crossed, FromLog, PastCursor, Climbing, Newest;
    CrossedPrefix(every, before, log);
    TableSize(every, log);
    var all, seen := Crossed(every, log), |Crossed(every, before)|;
    var table := PublishedFor(every, log).table;
    var dropped := |all| - |table|;
    var k := if seen <= dropped then 0 else seen - dropped;
    TableHeights(every, log, seen, k);
    LastHeight(every, log);
    PollOfTable(all, table, seen, k, CursorFor(every, before), CursorFor(every, log));
  }

  lemma {:induction false} PollOfTable(all: seq<ChainState>, table: seq<ChainState>, seen: nat, k: nat, cursor: nat, top: nat)
    requires seen <= |all| && table == Newest(all, CHECKPOINT_RING_CAPACITY) && Climbing(table)
    requires k == if seen <= |all| - |table| then 0 else seen - (|all| - |table|)
    requires forall i | 0 <= i < k :: i < |table| && table[i].n <= cursor
    requires forall i | k <= i < |table| :: table[i].n > cursor
    requires (seen == |all| ==> cursor == top) && (table != [] ==> table[|table| - 1].n == top)
    ensures PastCursor(table, cursor) == (Newest(all[seen..], CHECKPOINT_RING_CAPACITY), top)
  {
    hide PastCursor, Climbing, Newest;
    NewestSuffix(all, seen, k);
    PastCursorOfClimbing(table, cursor, k);
  }

  lemma {:induction false} LastHeight(every: nat, log: seq<Command>)
    requires every >= 1
    ensures var table := PublishedFor(every, log).table;
            (table == [] <==> Crossed(every, log) == []) && (table != [] ==> table[|table| - 1].n == |Crossed(every, log)| * every)
  {
    hide FromLog;
    if Crossed(every, log) != [] {
      CrossedHeight(every, log, |Crossed(every, log)| - 1);
      hide Crossed;
    }
  }

  lemma {:induction false} NewestSuffix<T>(all: seq<T>, seen: nat, k: nat)
    requires seen <= |all|
    requires var dropped := |all| - |Newest(all, CHECKPOINT_RING_CAPACITY)|;
             k == if seen <= dropped then 0 else seen - dropped
    ensures k <= |Newest(all, CHECKPOINT_RING_CAPACITY)|
    ensures Newest(all, CHECKPOINT_RING_CAPACITY)[k..] == Newest(all[seen..], CHECKPOINT_RING_CAPACITY)
    ensures k == |Newest(all, CHECKPOINT_RING_CAPACITY)| <==> seen == |all|
  {
  }

  lemma {:induction false} TableHeight(every: nat, log: seq<Command>, i: nat)
    requires every >= 1 && i < |PublishedFor(every, log).table|
    ensures var table := PublishedFor(every, log).table;
            table[i].n == (|Crossed(every, log)| - |table| + i + 1) * every
  {
    hide FromLog;
    var all, table := Crossed(every, log), PublishedFor(every, log).table;
    assert table[i] == all[|all| - |table| + i];
    CrossedHeight(every, log, |all| - |table| + i);
  }

  lemma {:induction false} TableSize(every: nat, log: seq<Command>)
    requires every >= 1
    ensures |PublishedFor(every, log).table| <= |Crossed(every, log)|
  {
  }

  lemma {:induction false} TableHeights(every: nat, log: seq<Command>, seen: nat, k: nat)
    requires every >= 1 && seen <= |Crossed(every, log)|
    requires var dropped := |Crossed(every, log)| - |PublishedFor(every, log).table|;
             k == if seen <= dropped then 0 else seen - dropped
    ensures var table := PublishedFor(every, log).table;
            && k <= |table| && Climbing(table)
            && (forall i | 0 <= i < k :: table[i].n <= seen * every)
            && (forall i | k <= i < |table| :: table[i].n > seen * every)
  {
    hide Crossed, PublishedFor;
    TableSize(every, log);
    var table := PublishedFor(every, log).table;
    var dropped := |Crossed(every, log)| - |table|;
    forall i | 0 <= i < |table|
      ensures i < k ==> table[i].n <= seen * every
      ensures i >= k ==> table[i].n > seen * every
    {
      TableHeight(every, log, i);
      if i >= k {
        Higher(seen, dropped + i + 1, every);
      } else if dropped + i + 1 < seen {
        Higher(dropped + i + 1, seen, every);
      }
    }
    forall i, j | 0 <= i < j < |table| ensures table[i].n < table[j].n {
      TableHeight(every, log, i);
      TableHeight(every, log, j);
      Higher(dropped + i + 1, dropped + j + 1, every);
    }
  }

  // ------------------------------------------------------------------------- many polls

  /** Logs as one replica applies more and more. */
  ghost predicate Growing(logs: seq<seq<Command>>) {
    forall i, j | 0 <= i < j < |logs| :: logs[i] <= logs[j]
  }

  /** The checkpoints emitted over a series of polls, and the cursor after them. */
  function Polled(every: nat, logs: seq<seq<Command>>): (seq<ChainState>, nat)
    requires every >= 1
  {
    if logs == [] then ([], 0)
    else
      var (emitted, cursor) := Polled(every, logs[..|logs| - 1]);
      var (more, cursor') := PastCursor(PublishedFor(every, logs[|logs| - 1]).table, cursor);
      (emitted + more, cursor')
  }

  function LastLog(logs: seq<seq<Command>>): seq<Command> {
    if logs == [] then [] else logs[|logs| - 1]
  }

  /** Between two polls no more than a table's worth of checkpoints was crossed. */
  ghost predicate Attentive(every: nat, logs: seq<seq<Command>>)
    requires every >= 1
  {
    forall i | 0 <= i < |logs| ::
      |Crossed(every, logs[i])| <= |Crossed(every, LastLog(logs[..i]))| + CHECKPOINT_RING_CAPACITY
  }

  lemma {:induction false} LogsGrow(logs: seq<seq<Command>>)
    requires logs != [] && Growing(logs)
    ensures LastLog(logs[..|logs| - 1]) <= logs[|logs| - 1] && Growing(logs[..|logs| - 1])
  {
  }

  lemma {:induction false} PolledNext(every: nat, logs: seq<seq<Command>>)
    requires every >= 1 && logs != [] && Growing(logs)
    requires Polled(every, logs[..|logs| - 1]).1 == CursorFor(every, LastLog(logs[..|logs| - 1]))
    ensures var n := |logs| - 1;
            var all, seen := Crossed(every, logs[n]), |Crossed(every, LastLog(logs[..n]))|;
            && seen <= |all| && Crossed(every, LastLog(logs[..n])) == all[..seen]
            && Polled(every, logs) == (Polled(every, logs[..n]).0 + Newest(all[seen..], CHECKPOINT_RING_CAPACITY), CursorFor(every, logs[n]))
  {
    hide Crossed, FromLog, PastCursor, Newest, Growing;
    LogsGrow(logs);
    var n := |logs| - 1;
    var before := LastLog(logs[..n]);
    PollEmitsNew(every, before, logs[n]);
    CrossedPrefix(every, before, logs[n]);
  }

  /** Everything emitted lies at or below `height` and is one of `all`. */
  ghost predicate EmittedUpTo(emitted: seq<ChainState>, all: seq<ChainState>, height: nat) {
    Climbing(emitted) && forall s | s in emitted :: s in all && s.n <= height
  }

  lemma {:induction false} EmitMore(
    emitted: seq<ChainState>, before: seq<ChainState>, height: nat, more: seq<ChainState>, all: seq<ChainState>, height': nat)
    requires EmittedUpTo(emitted, before, height) && before <= all && height <= height'
    requires Climbing(more) && forall s | s in more :: s in all && height < s.n <= height'
    ensures EmittedUpTo(emitted + more, all, height')
  {
    var out := emitted + more;
    forall i, j | 0 <= i < j < |out| ensures out[i].n < out[j].n {
      if j < |emitted| {
      } else if i >= |emitted| {
        assert out[i] == more[i - |emitted|] && out[j] == more[j - |emitted|];
      } else {
        assert out[i] in emitted && out[j] in more;
      }
    }
    forall s | s in out ensures s in all && s.n <= height' {
      if s in emitted {
        assert s in before;
      }
    }
  }

  /** Across all polls nothing is emitted twice: what comes out climbs strictly, and every
      item is a checkpoint the replica has crossed. */
  lemma {:induction false} PolledOnce(every: nat, logs: seq<seq<Command>>)
    requires every >= 1 && Growing(logs)
    ensures var (emitted, cursor) := Polled(every, logs);
            && cursor == CursorFor(every, LastLog(logs))
            && EmittedUpTo(emitted, Crossed(every, LastLog(logs)), cursor)
  {
    if logs == [] {
    } else {
      hide Crossed, FromLog, PastCursor, Newest, Growing, Climbing, EmittedUpTo;
      var n := |logs| - 1;
      LogsGrow(logs);
      PolledOnce(every, logs[..n]);
      PolledNext(every, logs);
      var all, seen := Crossed(every, logs[n]), |Crossed(every, LastLog(logs[..n]))|;
      NewestHeights(every, logs[n], seen);
      if seen < |all| {
        Higher(seen, |all|, every);
      }
      EmitMore(Polled(every, logs[..n]).0, all[..seen], CursorFor(every, LastLog(logs[..n])),
               Newest(all[seen..], CHECKPOINT_RING_CAPACITY), all, CursorFor(every, logs[n]));
    }
  }

  lemma {:induction false} NewestHeights(every: nat, log: seq<Command>, seen: nat)
    requires every >= 1 && seen <= |Crossed(every, log)|
    ensures var more := Newest(Crossed(every, log)[seen..], CHECKPOINT_RING_CAPACITY);
            && Climbing(more)
            && forall s | s in more :: s in Crossed(every, log) && seen * every < s.n <= |Crossed(every, log)| * every
  {
    var all := Crossed(every, log);
    var more := Newest(all[seen..], CHECKPOINT_RING_CAPACITY);
    var from := |all| - |more|;
    forall i | 0 <= i < |more|
      ensures more[i] == all[from + i] && more[i].n == (from + i + 1) * every
      ensures seen * every < more[i].n <= |all| * every
    {
      CrossedHeight(every, log, from + i);
      Higher(seen, from + i + 1, every);
      if from + i + 1 < |all| {
        Higher(from + i + 1, |all|, every);
      }
    }
    forall i, j | 0 <= i < j < |more| ensures more[i].n < more[j].n {
      Higher(from + i + 1, from + j + 1, every);
    }
  }

  /** And when polls keep up with the table, nothing is missed: every checkpoint is emitted
      exactly once, in order. */
  lemma {:induction false} PolledAll(every: nat, logs: seq<seq<Command>>)
    requires every >= 1 && Growing(logs) && Attentive(every, logs)
    ensures Polled(every, logs).0 == Crossed(every, LastLog(logs))
  {
    if logs == [] {
    } else {
      hide Crossed, FromLog, PastCursor, Growing, Attentive;
      LogsGrow(logs);
      var n := |logs| - 1;
      AttentiveBefore(every, logs);
      PolledAll(every, logs[..n]);
      PolledOnce(every, logs[..n]);
      PolledNext(every, logs);
      var all, seen := Crossed(every, logs[n]), |Crossed(every, LastLog(logs[..n]))|;
      assert all == all[..seen] + all[seen..];
    }
  }

  lemma {:induction false} AttentiveBefore(every: nat, logs: seq<seq<Command>>)
    requires every >= 1 && logs != [] && Attentive(every, logs)
    ensures Attentive(every, logs[..|logs| - 1])
    ensures |Crossed(every, logs[|logs| - 1])|
         <= |Crossed(every, LastLog(logs[..|logs| - 1]))| + CHECKPOINT_RING_CAPACITY
  {
    var before := logs[..|logs| - 1];
    forall i | 0 <= i < |before|
      ensures |Crossed(every, before[i])| <= |Crossed(every, LastLog(before[..i]))| + CHECKPOINT_RING_CAPACITY
    {
      assert before[i] == logs[i] && before[..i] == logs[..i];
    }
  }

  /** What one poll of a replica whose log is a prefix of `log` yields, wherever the cursor is. */
  lemma {:induction false} PolledIsHealthy(
    every: nat, replica: nat, at: nat, mine: seq<Command>, log: seq<Command>, cursor: nat)
    requires every >= 1 && mine <= log
    ensures var p := PublishedFor(every, mine);
            Healthy(AsSamples(replica, at, PastCursor(p.table, cursor).0) + [Sample(replica, at, p.frontier, None)], log)
  {
    hide FromLog, Crossed, Newest, PastCursor;
    var p := PublishedFor(every, mine);
    var emitted := PastCursor(p.table, cursor).0;
    EmittedAreStates(p.table, cursor);
    assert mine == log[..|mine|];
    forall i | 0 <= i < |emitted|
      ensures emitted[i].n <= |log| && emitted[i] == FromLog(log[..emitted[i].n])
    {
      assert emitted[i] in emitted && emitted[i] in p.table;
      var j :| 0 <= j < |p.table| && p.table[j] == emitted[i];
      PublishedAt(every, mine, j);
      assert mine[..emitted[i].n] == log[..emitted[i].n];
    }
  }

  lemma {:induction false} EmittedAreStates(states: seq<ChainState>, cursor: nat)
    ensures forall s | s in PastCursor(states, cursor).0 :: s in states
  {
    if states == [] {
    } else {
      EmittedAreStates(states[..|states| - 1], cursor);
    }
  }

  // ------------------------------------------------------------ many polls of many replicas

  /** One poll of a replica that has applied `mine` by then and publishes every `every`. */
  datatype Poll = Poll(replica: nat, at: nat, every: nat, mine: seq<Command>)

  ghost predicate Polls(polls: seq<Poll>, log: seq<Command>) {
    forall k | 0 <= k < |polls| :: polls[k].every >= 1 && polls[k].mine <= log
  }

  function CursorOf(cursors: map<nat, nat>, replica: nat): nat {
    if replica in cursors then cursors[replica] else 0
  }

  /** The samples of one poll, and the replica's cursor after it. */
  function PollOnce(p: Poll, cursor: nat): (seq<Sample>, nat)
    requires p.every >= 1
  {
    var published := PublishedFor(p.every, p.mine);
    var (states, cursor') := PastCursor(published.table, cursor);
    (AsSamples(p.replica, p.at, states) + [Sample(p.replica, p.at, published.frontier, None)], cursor')
  }

  /** All samples of a series of polls, in the order in which replicas were polled, and the
      cursor of each replica. */
  function PollAll(polls: seq<Poll>): (seq<Sample>, map<nat, nat>)
    requires forall k | 0 <= k < |polls| :: polls[k].every >= 1
  {
    if polls == [] then ([], map[])
    else
      var p := polls[|polls| - 1];
      var (samples, cursors) := PollAll(polls[..|polls| - 1]);
      var (more, cursor) := PollOnce(p, CursorOf(cursors, p.replica));
      (samples + more, cursors[p.replica := cursor])
  }

  lemma {:induction false} HealthyJoins(first: seq<Sample>, second: seq<Sample>, log: seq<Command>)
    requires Healthy(first, log) && Healthy(second, log)
    ensures Healthy(first + second, log)
  {
    hide FromLog;
    var all := first + second;
    forall i | 0 <= i < |all|
      ensures all[i].state.n <= |log| && all[i].state == FromLog(log[..all[i].state.n])
    {
      if i < |first| {
        assert all[i] == first[i];
      } else {
        assert all[i] == second[i - |first|];
      }
    }
  }

  lemma {:induction false} PollsAreHealthy(polls: seq<Poll>, log: seq<Command>)
    requires Polls(polls, log)
    ensures Healthy(PollAll(polls).0, log)
  {
    hide Healthy, PublishedFor, PastCursor;
    if polls == [] {
      NothingIsHealthy(log);
    } else {
      var n := |polls| - 1;
      var p := polls[n];
      var (samples, cursors) := PollAll(polls[..n]);
      PollsAreHealthy(polls[..n], log);
      PolledIsHealthy(p.every, p.replica, p.at, p.mine, log, CursorOf(cursors, p.replica));
      HealthyJoins(samples, PollOnce(p, CursorOf(cursors, p.replica)).0, log);
    }
  }

  lemma {:induction false} NothingIsHealthy(log: seq<Command>)
    ensures Healthy([], log)
  {
  }

  /** Polling any replicas in any order, as often as one likes, while their logs are prefixes
      of one log, never makes the observer report anything. */
  lemma {:induction false} PollsKeepQuiet(polls: seq<Poll>, log: seq<Command>, cap: nat)
    requires cap > 0 && Polls(polls, log)
    ensures ObservedAll(PollAll(polls).0, cap).divergences == map[]
  {
    hide Healthy, PollAll;
    PollsAreHealthy(polls, log);
    HealthyIsQuiet(PollAll(polls).0, log, cap);
  }
}
