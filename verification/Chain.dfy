/** The chain of states over an applied log, the folder that extends it batch by batch, and
    the bounded table of checkpoints it publishes. */
module Chain {
  import opened ChainHash
  import opened Arithmetic
  import Bytes

  datatype ChainState = ChainState(n: nat, h: Word)

  const GENESIS_STATE: ChainState := ChainState(0, GENESIS)

  datatype Transition = Transition(before: ChainState, after: ChainState, commandDigest: Word)

  function Applied(s: ChainState, c: Command): ChainState {
    ChainState(s.n + 1, Extend(s.h, c))
  }

  /** The state after a whole log. */
  function FromLog(log: seq<Command>): (s: ChainState)
    ensures s.n == |log|
  {
    if log == [] then GENESIS_STATE else Applied(FromLog(log[..|log| - 1]), log[|log| - 1])
  }

  /** A chain starts at height 0 with the offset basis; each command adds one to the height,
      and the new hash is the finalized hash of the old one's eight bytes and the command's. */
  lemma {:induction false} ChainMeaning(log: seq<Command>, c: Command)
    ensures FromLog([]) == ChainState(0, 0xcbf2_9ce4_8422_2325)
    ensures FromLog(log + [c])
         == ChainState(|log| + 1, Mix(Fnv(0xcbf2_9ce4_8422_2325, Bytes.LittleEndian(FromLog(log).h, 8) + Encode(c))))
  {
    hide Mix, Fnv, Encode, Extend, Bytes.LittleEndian;
    assert (log + [c])[..|log|] == log;
    ExtendMeaning(FromLog(log).h, FromLog(log).h, c);
  }

  lemma {:induction false} EmptyLog(log: seq<Command>)
    ensures FromLog(log[..0]) == GENESIS_STATE
  {
  }

  lemma {:induction false} FromLogNext(log: seq<Command>, k: nat)
    requires k < |log|
    ensures FromLog(log[..k + 1]) == Applied(FromLog(log[..k]), log[k])
  {
    assert log[..k + 1][..k] == log[..k];
  }

  /** The state as the object that is advanced in place. */
  class Head {
    var n: nat
    var h: Word

    function State(): ChainState
      reads this
    {
      ChainState(n, h)
    }

    constructor ()
      ensures State() == GENESIS_STATE
    {
      n, h := 0, GENESIS;
    }

    method Apply(c: Command) returns (t: Transition)
      modifies this
      ensures State() == Applied(old(State()), c)
      ensures t == Transition(old(State()), State(), CommandDigest(c))
    {
      var before := ChainState(n, h);
      n := n + 1;
      h := Extend(before.h, c);
      t := Transition(before, ChainState(n, h), CommandDigest(c));
    }
  }

  /** Every prefix state of a log, the empty prefix included. */
  method Prefixes(log: seq<Command>) returns (states: seq<ChainState>)
    ensures |states| == |log| + 1
    ensures forall k | 0 <= k <= |log| :: states[k] == FromLog(log[..k])
  {
    hide FromLog, Applied;
    var head := new Head();
    assert FromLog(log[..0]) == GENESIS_STATE by { EmptyLog(log); }
    states := [head.State()];
    for k := 0 to |log|
      invariant |states| == k + 1 && head.State() == FromLog(log[..k])
      invariant forall j | 0 <= j <= k :: states[j] == FromLog(log[..j])
    {
      FromLogNext(log, k);
      var _ := head.Apply(log[k]);
      states := states + [head.State()];
    }
  }

  // ---------------------------------------------------------------------------- publishing

  const CHECKPOINT_RING_CAPACITY: nat := 256

  function Spacing(every: nat): (e: nat)
    ensures e >= 1 && (every >= 1 ==> e == every)
  {
    if every == 0 then 1 else every
  }

  /** What readers of the table see. */
  datatype Published = Published(frontier: ChainState, table: seq<ChainState>, truncated: bool)

  function Recorded(p: Published, s: ChainState): Published {
    if |p.table| == CHECKPOINT_RING_CAPACITY
    then Published(p.frontier, p.table[1..] + [s], true)
    else Published(p.frontier, p.table + [s], p.truncated)
  }

  class ChainCheckpoints {
    const every: nat
    var frontier: ChainState
    var table: seq<ChainState>
    var truncated: bool

    function Seen(): Published
      reads this
    {
      Published(frontier, table, truncated)
    }

    constructor (every: nat)
      ensures this.every == Spacing(every) && Seen() == Published(GENESIS_STATE, [], false)
    {
      this.every := if every == 0 then 1 else every;
      frontier, table, truncated := GENESIS_STATE, [], false;
    }

    method Record(s: ChainState)
      modifies this
      ensures Seen() == Recorded(old(Seen()), s)
    {
      if |table| == CHECKPOINT_RING_CAPACITY {
        table := table[1..];
        truncated := true;
      }
      table := table + [s];
    }

    method SetFrontier(s: ChainState)
      modifies this`frontier
      ensures frontier == s
    {
      frontier := s;
    }
  }

  /** The checkpoints a log crosses, one per multiple of the spacing. */
  function Crossed(every: nat, log: seq<Command>): seq<ChainState>
    requires every >= 1
  {
    if log == [] then []
    else
      Crossed(every, log[..|log| - 1]) + if |log| % every == 0 then [FromLog(log)] else []
  }

  function Newest<T>(s: seq<T>, k: nat): seq<T> {
    if |s| <= k then s else s[|s| - k..]
  }

  /** What must have been published once `log` has been folded: the chain state of the whole
      log, and the newest of all checkpoints crossed. */
  function PublishedFor(every: nat, log: seq<Command>): Published
    requires every >= 1
  {
    Published(FromLog(log), Newest(Crossed(every, log), CHECKPOINT_RING_CAPACITY),
              |Crossed(every, log)| > CHECKPOINT_RING_CAPACITY)
  }

  /** The `i`-th checkpoint is the chain state of the first `(i + 1) * every` commands. */
  lemma {:induction false} CheckpointMeaning(every: nat, log: seq<Command>, i: nat)
    requires every >= 1 && i < |Crossed(every, log)|
    ensures 0 <= (i + 1) * every <= |log|
    ensures Crossed(every, log)[i] == FromLog(log[..(i + 1) * every])
  {
    hide FromLog;
    var n := |log| - 1;
    if i < |Crossed(every, log[..n])| {
      CheckpointMeaning(every, log[..n], i);
      assert log[..n][..(i + 1) * every] == log[..(i + 1) * every];
    } else {
      LastCrossed(every, log);
      assert log[..|log|] == log;
    }
  }

  lemma {:induction false} LastCrossed(every: nat, log: seq<Command>)
    requires every >= 1 && log != [] && |log| % every == 0
    ensures |Crossed(every, log)| * every == |log|
  {
    CrossedCount(every, log);
    var k := |Crossed(every, log)|;
    assert (k + 1) * every == k * every + every;
    Quotient(|log|, every, k, |log| - k * every);
  }

  lemma {:induction false} CrossedCount(every: nat, log: seq<Command>)
    requires every >= 1
    ensures |Crossed(every, log)| * every <= |log| < (|Crossed(every, log)| + 1) * every
  {
    hide FromLog;
    if log == [] {
    } else {
      var n := |log| - 1;
      CrossedCount(every, log[..n]);
      var k := |Crossed(every, log[..n])|;
      MultipleWithin(k, every, n + 1);
    }
  }

  /** The only multiple of `d` above `k * d` and up to `(k + 1) * d` is the latter. */
  lemma {:induction false} MultipleWithin(k: nat, d: nat, m: nat)
    requires d >= 1 && k * d < m <= (k + 1) * d
    ensures m % d == 0 <==> m == (k + 1) * d
  {
    assert (k + 1) * d == k * d + d;
    if m == (k + 1) * d {
      Quotient(m, d, k + 1, 0);
    } else {
      Quotient(m, d, k, m - k * d);
    }
  }

  /** One more command folded into a published table. */
  function FoldOne(every: nat, s: ChainState, p: Published, c: Command): (ChainState, Published)
    requires every >= 1
  {
    var next := Applied(s, c);
    (next, if next.n % every == 0 then Recorded(p, next) else p)
  }

  /** The table, its frontier aside, for the first commands of a log. */
  ghost predicate TableFor(every: nat, log: seq<Command>, p: Published)
    requires every >= 1
  {
    && p.table == Newest(Crossed(every, log), CHECKPOINT_RING_CAPACITY)
    && p.truncated == (|Crossed(every, log)| > CHECKPOINT_RING_CAPACITY)
  }

  lemma {:induction false} CrossedNext(every: nat, log: seq<Command>, k: nat)
    requires every >= 1 && k < |log|
    ensures Crossed(every, log[..k + 1])
         == Crossed(every, log[..k]) + if (k + 1) % every == 0 then [FromLog(log[..k + 1])] else []
  {
    hide FromLog;
    assert log[..k + 1][..k] == log[..k];
  }

  lemma {:induction false} NewestNext<T>(s: seq<T>, x: T, cap: nat)
    requires cap > 0
    ensures Newest(s + [x], cap) == (if |s| >= cap then Newest(s, cap)[1..] + [x] else Newest(s, cap) + [x])
    ensures |Newest(s, cap)| == cap <==> |s| >= cap
  {
  }

  lemma {:induction false} RecordedNext(all: seq<ChainState>, p: Published, x: ChainState)
    requires p.table == Newest(all, CHECKPOINT_RING_CAPACITY) && p.truncated == (|all| > CHECKPOINT_RING_CAPACITY)
    ensures Recorded(p, x).table == Newest(all + [x], CHECKPOINT_RING_CAPACITY)
    ensures Recorded(p, x).truncated == (|all + [x]| > CHECKPOINT_RING_CAPACITY)
  {
    hide Newest;
    NewestNext(all, x, CHECKPOINT_RING_CAPACITY);
  }

  lemma {:induction false} FoldKeepsTable(every: nat, log: seq<Command>, k: nat, p: Published)
    requires every >= 1 && k < |log| && TableFor(every, log[..k], p)
    ensures var (s, p') := FoldOne(every, FromLog(log[..k]), p, log[k]);
            s == FromLog(log[..k + 1]) && TableFor(every, log[..k + 1], p')
  {
    assert Applied(FromLog(log[..k]), log[k]).n == k + 1;
    hide Applied, FromLog, Crossed, Newest, Recorded;
    FromLogNext(log, k);
    CrossedNext(every, log, k);
    if (k + 1) % every == 0 {
      RecordedNext(Crossed(every, log[..k]), p, FromLog(log[..k + 1]));
    } else {
      assert Crossed(every, log[..k + 1]) == Crossed(every, log[..k]);
    }
  }

  /** Commands applied from slot `from` on. */
  function AppliedFrom(log: seq<Command>, from: nat): seq<Command> {
    if from <= |log| then log[from..] else []
  }

  class ChainFolder {
    const every: nat
    const head: Head

    constructor (every: nat)
      ensures this.every == Spacing(every) && fresh(head) && head.State() == GENESIS_STATE
    {
      this.every := if every == 0 then 1 else every;
      head := new Head();
    }

    /** Fold whatever the node has applied since the last call: `before` is what had been
        folded then, and `log`, which extends it, is what the node has applied by now. */
    method Fold(log: seq<Command>, sink: ChainCheckpoints, ghost before: seq<Command>)
      requires every >= 1 && before <= log
      requires head.State() == FromLog(before) && sink.Seen() == PublishedFor(every, before)
      modifies head, sink
      ensures head.State() == FromLog(log) && sink.Seen() == PublishedFor(every, log)
    {
      hide FromLog, Crossed, Newest, Applied, Recorded;
      var news := AppliedFrom(log, head.n);
      ghost var start := |before|;
      assert log[..start] == before;
      for k := 0 to |news|
        invariant head.State() == FromLog(log[..start + k])
        invariant TableFor(every, log[..start + k], sink.Seen())
      {
        FoldKeepsTable(every, log, start + k, sink.Seen());
        assert news[k] == log[start + k];
        var _ := head.Apply(news[k]);
        if head.n % every == 0 {
          sink.Record(head.State());
        }
      }
      assert log[..start + |news|] == log;
      sink.SetFrontier(head.State());
    }
  }

  /** A checkpoint once crossed is crossed at the same place by every longer log. */
  lemma {:induction false} CrossedGrows(every: nat, log: seq<Command>, more: seq<Command>)
    requires every >= 1
    ensures Crossed(every, log) <= Crossed(every, log + more)
    decreases |more|
  {
    if more == [] {
      assert log + more == log;
    } else {
      var n := |more| - 1;
      CrossedGrows(every, log, more[..n]);
      assert (log + more)[..|log + more| - 1] == log + more[..n];
    }
  }

  /** Every published checkpoint is the chain over the prefix it names, and the table keeps
      exactly the newest of them, saying so when it dropped one. */
  lemma {:induction false} PublishedMeaning(every: nat, log: seq<Command>)
    requires every >= 1
    ensures var p, k := PublishedFor(every, log), |log| / every;
            && p.frontier == FromLog(log)
            && |p.table| == (if k <= 256 then k else 256)
            && (p.truncated <==> k > 256)
            && forall j | 0 <= j < |p.table| ::
                 && p.table[j].n == (k - |p.table| + j + 1) * every <= |log|
                 && p.table[j] == FromLog(log[..p.table[j].n])
  {
    hide FromLog, Crossed;
    var all := Crossed(every, log);
    CrossedCount(every, log);
    Quotient(|log|, every, |all|, |log| - |all| * every);
    var p := PublishedFor(every, log);
    forall j | 0 <= j < |p.table|
      ensures p.table[j].n == (|log| / every - |p.table| + j + 1) * every <= |log|
      ensures p.table[j] == FromLog(log[..p.table[j].n])
    {
      PublishedAt(every, log, j);
    }
  }

  lemma {:induction false} PublishedAt(every: nat, log: seq<Command>, j: nat)
    requires every >= 1 && j < |PublishedFor(every, log).table|
    ensures var p, k := PublishedFor(every, log), |log| / every;
            && p.table[j].n == (k - |p.table| + j + 1) * every <= |log|
            && p.table[j] == FromLog(log[..p.table[j].n])
  {
    hide FromLog, Crossed;
    var all := Crossed(every, log);
    var p := PublishedFor(every, log);
    CrossedCount(every, log);
    Quotient(|log|, every, |all|, |log| - |all| * every);
    var i := |all| - |p.table| + j;
    assert p.table[j] == all[i];
    CheckpointMeaning(every, log, i);
  }
}
