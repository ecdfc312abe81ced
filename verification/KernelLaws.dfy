/** What the kernel's trace says of itself: every delivery, drop, firing and flight explained
    by the latest fault commands recorded before it. */
module KernelLaws {
  import opened Kernel

  // ------------------------------------------------------- the latest word on a matter

  /** What a fault command is about. */
  datatype Topic = Liveness(node: nat) | Network | Pace(node: nat)

  predicate Concerns(e: TraceEvent, topic: Topic) {
    e.FaultApplied? && match topic
      case Liveness(n) => e.cmd == Crash(n) || e.cmd == Restart(n)
      case Network => e.cmd.Partition? || e.cmd.Heal?
      case Pace(n) => (e.cmd.SlowNode? || e.cmd.ClearSlow?) && e.cmd.node == n
  }

  /** Entry `c` is the last of the trace about `topic`. */
  ghost predicate Latest(trace: Trace, topic: Topic, c: int) {
    0 <= c < |trace| && Concerns(trace[c], topic) && forall j | c < j < |trace| :: !Concerns(trace[j], topic)
  }

  ghost predicate Unmentioned(trace: Trace, topic: Topic) {
    forall j | 0 <= j < |trace| :: !Concerns(trace[j], topic)
  }

  /** The last command about `n` crashes it. */
  ghost predicate Down(trace: Trace, n: nat) {
    exists c :: Latest(trace, Liveness(n), c) && trace[c].cmd == Crash(n)
  }

  /** The last command about the network puts `a` and `b` on opposite sides. */
  ghost predicate Cut(trace: Trace, a: nat, b: nat) {
    exists c :: Latest(trace, Network, c) && trace[c].cmd.Partition? && Splits(trace[c].cmd, a, b)
  }

  predicate Splits(cmd: FaultCommand, a: nat, b: nat)
    requires cmd.Partition?
  {
    (a in cmd.groupA && b in cmd.groupB) || (b in cmd.groupA && a in cmd.groupB)
  }

  /** `m` is the factor the last command about `n` left it with. */
  ghost predicate Slowed(trace: Trace, n: nat, m: nat) {
    || (Unmentioned(trace, Pace(n)) && m == 1)
    || exists c :: Latest(trace, Pace(n), c) && m == Factor(trace[c].cmd)
  }

  function Factor(cmd: FaultCommand): nat {
    if cmd.SlowNode? && cmd.multiplier > 1 then cmd.multiplier else 1
  }

  function FactorNow(f: FaultState, n: nat): nat {
    if n in f.slow then f.slow[n] else 1
  }

  lemma {:induction false} LatestBefore(trace: Trace, topic: Topic, c: int)
    requires Latest(trace, topic, c) && c < |trace| - 1
    ensures Latest(trace[..|trace| - 1], topic, c) && !Concerns(trace[|trace| - 1], topic)
  {
    hide Concerns;
  }

  lemma {:induction false} SomeLatest(trace: Trace, topic: Topic) returns (c: int)
    ensures Unmentioned(trace, topic) || Latest(trace, topic, c)
  {
    hide Concerns;
    if trace == [] {
      c := 0;
    } else if Concerns(trace[|trace| - 1], topic) {
      c := |trace| - 1;
    } else {
      c := SomeLatest(trace[..|trace| - 1], topic);
    }
  }

  lemma {:induction false} LatestIsOne(trace: Trace, topic: Topic, c: int, d: int)
    requires Latest(trace, topic, c) && Latest(trace, topic, d)
    ensures c == d
  {
    hide Concerns;
  }

  // ------------------------------------------- the fault state is what the trace last said

  /** What entry `c`, the latest about `topic`, leaves behind. */
  ghost predicate InForce(f: FaultState, topic: Topic, cmd: FaultCommand) {
    match topic
    case Liveness(n) => n in f.crashed <==> cmd == Crash(n)
    case Network => f.partition == if cmd.Partition? then Proposals.Some((cmd.groupA, cmd.groupB)) else Proposals.None
    case Pace(n) => FactorNow(f, n) == Factor(cmd)
  }

  ghost predicate Default(f: FaultState, topic: Topic) {
    match topic
    case Liveness(n) => n !in f.crashed
    case Network => f.partition.None?
    case Pace(n) => n !in f.slow
  }

  lemma {:induction false} LatestInForce(trace: Trace, topic: Topic, c: int)
    requires Latest(trace, topic, c)
    ensures InForce(FaultsAfter(trace), topic, trace[c].cmd)
  {
    var last := |trace| - 1;
    if c < last {
      LatestBefore(trace, topic, c);
      LatestInForce(trace[..last], topic, c);
    }
  }

  lemma {:induction false} UnmentionedIsDefault(trace: Trace, topic: Topic)
    requires Unmentioned(trace, topic)
    ensures Default(FaultsAfter(trace), topic)
  {
    if trace == [] {
    } else {
      assert Unmentioned(trace[..|trace| - 1], topic);
      UnmentionedIsDefault(trace[..|trace| - 1], topic);
      assert !Concerns(trace[|trace| - 1], topic);
    }
  }

  lemma {:induction false} DownIsCrashed(trace: Trace, n: nat)
    ensures n in FaultsAfter(trace).crashed <==> Down(trace, n)
  {
    hide Concerns, FaultsAfter, Latest, Unmentioned;
    var c := SomeLatest(trace, Liveness(n));
    if Unmentioned(trace, Liveness(n)) {
      UnmentionedIsDefault(trace, Liveness(n));
      forall d | Latest(trace, Liveness(n), d) ensures false {
        NotBoth(trace, Liveness(n), d);
      }
    } else {
      LatestInForce(trace, Liveness(n), c);
      forall d | Latest(trace, Liveness(n), d) ensures d == c {
        LatestIsOne(trace, Liveness(n), c, d);
      }
    }
  }

  lemma {:induction false} NotBoth(trace: Trace, topic: Topic, c: int)
    requires Latest(trace, topic, c)
    ensures !Unmentioned(trace, topic)
  {
    hide Concerns;
  }

  lemma {:induction false} CutIsPartitioned(trace: Trace, a: nat, b: nat)
    ensures IsPartitioned(FaultsAfter(trace), a, b) <==> Cut(trace, a, b)
  {
    hide Concerns, FaultsAfter, Latest, Unmentioned;
    var c := SomeLatest(trace, Network);
    if Unmentioned(trace, Network) {
      UnmentionedIsDefault(trace, Network);
      forall d | Latest(trace, Network, d) ensures false {
        NotBoth(trace, Network, d);
      }
    } else {
      LatestInForce(trace, Network, c);
      forall d | Latest(trace, Network, d) ensures d == c {
        LatestIsOne(trace, Network, c, d);
      }
    }
  }

  lemma {:induction false} SlowedIsFactor(trace: Trace, n: nat, m: nat)
    ensures FactorNow(FaultsAfter(trace), n) == m <==> Slowed(trace, n, m)
  {
    hide Concerns, FaultsAfter, Latest, Unmentioned, Factor;
    var c := SomeLatest(trace, Pace(n));
    if Unmentioned(trace, Pace(n)) {
      UnmentionedIsDefault(trace, Pace(n));
      forall d | Latest(trace, Pace(n), d) ensures false {
        NotBoth(trace, Pace(n), d);
      }
    } else {
      LatestInForce(trace, Pace(n), c);
      forall d | Latest(trace, Pace(n), d) ensures d == c {
        LatestIsOne(trace, Pace(n), c, d);
      }
    }
  }

  // ---------------------------------------------------------------- laws of every trace

  /** While a partition is the last word on the network, nothing is delivered across it in
      either direction, and only what crosses it is dropped on its account. */
  lemma {:induction false} PartitionLaw(moves: seq<Move>, c: nat, i: nat, g: set<nat>, h: set<nat>)
    requires i < |After(moves).trace| && Latest(After(moves).trace[..i], Network, c)
    requires After(moves).trace[c].cmd == Partition(g, h)
    ensures var e := After(moves).trace[i];
            && (e.Delivered? ==> !(e.src in g && e.dst in h) && !(e.src in h && e.dst in g))
            && (e.Dropped? && (e.reason.Partitioned? || e.reason.PartitionedAtArrival?) ==>
                  (e.src in g && e.dst in h) || (e.src in h && e.dst in g))
  {
    hide FaultsAfter, Concerns;
    DeliveriesHonest(moves, i);
    var before := After(moves).trace[..i];
    LatestInForce(before, Network, c);
    assert before[c] == After(moves).trace[c];
  }

  /** With no partition yet, or the last one healed, nothing is dropped as partitioned. */
  lemma {:induction false} HealedLaw(moves: seq<Move>, c: int, i: nat)
    requires i < |After(moves).trace|
    requires Unmentioned(After(moves).trace[..i], Network)
             || (Latest(After(moves).trace[..i], Network, c) && After(moves).trace[c].cmd == Heal)
    ensures var e := After(moves).trace[i];
            e.Dropped? ==> !e.reason.Partitioned? && !e.reason.PartitionedAtArrival?
  {
    hide FaultsAfter, Concerns, Unmentioned;
    DeliveriesHonest(moves, i);
    var before := After(moves).trace[..i];
    if Unmentioned(before, Network) {
      UnmentionedIsDefault(before, Network);
    } else {
      LatestInForce(before, Network, c);
      assert before[c] == After(moves).trace[c];
    }
  }

  /** A crashed node hears nothing and none of its timers fire until it is restarted; a node
      never crashed, or restarted since, loses no timer. A drop blamed on a crash has a
      crashed end. */
  lemma {:induction false} CrashLaw(moves: seq<Move>, i: nat)
    requires i < |After(moves).trace|
    ensures var before, e := After(moves).trace[..i], After(moves).trace[i];
            && (e.Delivered? ==> !Down(before, e.dst))
            && (e.TimerFired? ==> !Down(before, e.node))
            && (e.TimerDropped? ==> Down(before, e.node))
            && (e.Dropped? && e.reason.NodeCrashed? ==> Down(before, e.src) || Down(before, e.dst))
  {
    hide FaultsAfter, Down;
    DeliveriesHonest(moves, i);
    var before, e := After(moves).trace[..i], After(moves).trace[i];
    if e.Delivered? || e.Dropped? {
      DownIsCrashed(before, e.src);
      DownIsCrashed(before, e.dst);
    }
    if e.TimerFired? || e.TimerDropped? {
      DownIsCrashed(before, e.node);
    }
  }

  // ------------------------------------------------------------------ the fate of a send

  /** A send is recorded under a fresh id, and then either dropped at once, for a crashed end,
      a partition between the ends, or by the scheduler, in this order of precedence; or it
      takes flight, to arrive after the delay stretched by the slower end, at least a tick. */
  lemma {:induction false} SendFate(k: Core, src: nat, dst: nat, decision: Decision, s: nat, d: nat)
    requires Inv(k) && Slowed(k.trace, src, s) && Slowed(k.trace, dst, d)
    ensures var k' := Send(k, src, dst, decision);
            var sent := Sent(k.now, k.nextSeq, k.nextId, src, dst);
            && k'.nextId == k.nextId + 1 && k'.nextSeq == k.nextSeq + 2
            && k'.now == k.now && k'.faults == k.faults && k'.nodes == k.nodes && k'.strayed == k.strayed
            && (Down(k.trace, src) || Down(k.trace, dst) ==>
                  Lost(k, k', sent, NodeCrashed))
            && (!Down(k.trace, src) && !Down(k.trace, dst) && Cut(k.trace, src, dst) ==>
                  Lost(k, k', sent, Partitioned))
            && (!Down(k.trace, src) && !Down(k.trace, dst) && !Cut(k.trace, src, dst) && decision.DropIt? ==>
                  Lost(k, k', sent, Scheduler))
            && (!Down(k.trace, src) && !Down(k.trace, dst) && !Cut(k.trace, src, dst) && decision.DeliverAfter? ==>
                  && k'.trace == k.trace + [sent]
                  && k'.inFlight == k.inFlight[k.nextId := Envelope(src, dst)]
                  && exists at :: ArrivesAt(k.now, decision.delay, s, d, at)
                                  && k'.queue == k.queue + {Event(at, k.nextSeq + 1, Arrival(k.nextId))})
  {
    hide FaultsAfter, Down, Cut, Slowed;
    assert k.faults == FaultsAfter(k.trace);
    DownIsCrashed(k.trace, src);
    DownIsCrashed(k.trace, dst);
    CutIsPartitioned(k.trace, src, dst);
    SlowedIsFactor(k.trace, src, s);
    SlowedIsFactor(k.trace, dst, d);
    hide Inv, IsPartitioned;
    if decision.DeliverAfter? {
      var slower := SlowMultiplier(k.faults, src, dst);
      var total := AtLeastOne(SaturatingMul(decision.delay, slower));
      assert Stretched(decision.delay, slower, total);
      assert ArrivesAt(k.now, decision.delay, s, d, Advance(k.now, total));
    }
  }

  /** Recorded as sent and at once as dropped; nothing takes flight. */
  ghost predicate Lost(k: Core, k': Core, sent: TraceEvent, reason: DropReason)
    requires sent.Sent?
  {
    && k'.trace == k.trace + [sent, Dropped(k.now, k.nextSeq + 1, sent.id, sent.src, sent.dst, reason)]
    && k'.inFlight == k.inFlight && k'.queue == k.queue
  }

  /** `at` is `delay` times the greater of `s` and `d` after `now`, at least one tick, and both
      the product and the sum stop at the end of time. */
  ghost predicate ArrivesAt(now: Time, delay: nat, s: nat, d: nat, at: Time) {
    exists slower: nat, stretched: nat {:trigger Stretched(delay, slower, stretched)} ::
      && s <= slower && d <= slower && (slower == s || slower == d)
      && Stretched(delay, slower, stretched)
      && (at == MAX_TIME || at == now + stretched)
      && (at == MAX_TIME <==> now + stretched >= MAX_TIME)
  }

  ghost predicate Stretched(delay: nat, slower: nat, stretched: nat) {
    && stretched >= 1
    && (delay * slower == 0 ==> stretched == 1)
    && (0 < delay * slower <= MAX_TIME ==> stretched == delay * slower)
    && (delay * slower > MAX_TIME ==> stretched == MAX_TIME)
  }

  // --------------------------------------------------------------- what a callback asks for

  predicate IsRequest(e: TraceEvent) {
    e.Sent? || e.TimerScheduled?
  }

  function Requested(trace: Trace): Trace {
    if trace == [] then []
    else Requested(trace[..|trace| - 1]) + if IsRequest(trace[|trace| - 1]) then [trace[|trace| - 1]] else []
  }

  lemma {:induction false} NothingRequested()
    ensures Requested([]) == []
  {
  }

  lemma {:induction false} RequestedAppends(first: Trace, second: Trace)
    ensures Requested(first + second) == Requested(first) + Requested(second)
  {
    if second == [] {
      assert first + second == first;
    } else {
      var before := second[..|second| - 1];
      assert (first + second)[..|first + second| - 1] == first + before;
      RequestedAppends(first, before);
    }
  }

  /** Entry `e` is how the trace shows the request `op` of node `self` made at `now`. */
  ghost predicate Answers(e: TraceEvent, now: Time, self: nat, op: Op) {
    && e.time == now
    && match op
       case SendOp(dst, _) => e.Sent? && e.src == self && e.dst == dst
       case TimerOp(after, timerId) =>
         && e.TimerScheduled? && e.node == self && e.timerId == timerId
         && (e.fireAt == MAX_TIME || e.fireAt == now + if after == 0 then 1 else after)
         && (e.fireAt == MAX_TIME <==> now + (if after == 0 then 1 else after) >= MAX_TIME)
  }

  lemma {:induction false} SendRecords(k: Core, src: nat, dst: nat, decision: Decision) returns (rest: Trace)
    ensures var k' := Send(k, src, dst, decision);
            && k'.trace == k.trace + ([Sent(k.now, k.nextSeq, k.nextId, src, dst)] + rest)
            && k.queue <= k'.queue && k'.now == k.now
            && (rest == [] || (|rest| == 1 && !IsRequest(rest[0])))
  {
    hide IsPartitioned, SaturatingMul, SlowMultiplier, Advance;
    rest := Send(k, src, dst, decision).trace[|k.trace| + 1..];
  }

  /** One operation adds its entries and events to what is there. */
  lemma {:induction false} OneRequest(k: Core, self: nat, op: Op) returns (entries: Trace)
    ensures var k' := Perform(k, self, [op]);
            && k'.trace == k.trace + entries && k.queue <= k'.queue && k'.now == k.now
            && |Requested(entries)| == 1 && Answers(Requested(entries)[0], k.now, self, op)
  {
    PerformOne(k, self, op);
    NothingRequested();
    hide Perform, Requested, Send;
    match op
    case SendOp(dst, decision) =>
      var sent := Sent(k.now, k.nextSeq, k.nextId, self, dst);
      var rest := SendRecords(k, self, dst, decision);
      entries := [sent] + rest;
      RequestedAppends([sent], rest);
      RequestedIfOne(sent);
      if rest != [] {
        RequestedIfOne(rest[0]);
        assert rest == [rest[0]];
      }
    case TimerOp(after, timerId) =>
      var e := TimerScheduled(k.now, k.nextSeq, self, timerId, Advance(k.now, AtLeastOne(after)));
      entries := [e];
      RequestedIfOne(e);
  }

  lemma {:induction false} PerformOne(k: Core, self: nat, op: Op)
    ensures Perform(k, self, [op]) == match op
              case SendOp(dst, decision) => Send(k, self, dst, decision)
              case TimerOp(after, timerId) => ScheduleTimer(k, self, after, timerId)
  {
    hide Send, ScheduleTimer;
    assert [op][..0] == [];
    assert Perform(k, self, []) == k;
  }

  lemma {:induction false} RequestedIfOne(e: TraceEvent)
    ensures Requested([e]) == if IsRequest(e) then [e] else []
  {
    assert [e][..0] == [];
  }

  /** A callback's requests are all carried out, once each and in order, at the time of the
      callback. */
  lemma {:induction false} CallbackInOrder(k: Core, self: nat, ops: seq<Op>) returns (entries: Trace)
    ensures var k' := Perform(k, self, ops);
            && k'.trace == k.trace + entries && k.queue <= k'.queue && k'.now == k.now
            && |Requested(entries)| == |ops|
            && forall j | 0 <= j < |ops| :: Answers(Requested(entries)[j], k.now, self, ops[j])
  {
    NothingRequested();
    hide Answers, Requested, Send, ScheduleTimer;
    if ops == [] {
      entries := [];
    } else {
      var first, op := ops[..|ops| - 1], ops[|ops| - 1];
      var earlier := CallbackInOrder(k, self, first);
      var mid := Perform(k, self, first);
      var last := OneRequest(mid, self, op);
      assert [op][..0] == [];
      assert Perform(mid, self, [op]) == Perform(k, self, ops);
      entries := earlier + last;
      RequestedAppends(earlier, last);
    }
  }

  // ----------------------------------------------------------------- the fate of an event

  /** The event has left the queue, the clock shows its time, and `entries` were recorded. */
  ghost predicate Taken(k: Core, e: Event, entries: Trace, mid: Core) {
    && mid.now == e.time && mid.queue == k.queue - {e} && mid.trace == k.trace + entries
    && mid.nextId == k.nextId && mid.nodes == k.nodes
  }

  /** A message that arrives is dropped for a crashed receiver, or else for a partition, or else
      handed to its receiver, if there is one, which runs its callback; a sender that has
      crashed since does not matter. */
  lemma {:induction false} ArrivalFate(k: Core, until: Time, ops: seq<Op>, e: Event, src: nat, dst: nat) returns (mid: Core)
    requires Inv(k) && IsEarliest(k.queue, e) && e.time <= until
    requires e.kind.Arrival? && e.kind.id in k.inFlight && k.inFlight[e.kind.id] == Envelope(src, dst)
    ensures var id, k' := e.kind.id, Turn(k, until, ops);
            && mid.inFlight == k.inFlight - {id} && mid.faults == k.faults && mid.nextSeq == k.nextSeq
            && (Down(k.trace, dst) ==>
                  k' == mid && Taken(k, e, [Dropped(e.time, e.seqNo, id, src, dst, NodeCrashed)], mid))
            && (!Down(k.trace, dst) && Cut(k.trace, src, dst) ==>
                  k' == mid && Taken(k, e, [Dropped(e.time, e.seqNo, id, src, dst, PartitionedAtArrival)], mid))
            && (!Down(k.trace, dst) && !Cut(k.trace, src, dst) && dst in k.nodes ==>
                  k' == Perform(mid, dst, ops) && Taken(k, e, [Delivered(e.time, e.seqNo, id, src, dst)], mid))
            && (!Down(k.trace, dst) && !Cut(k.trace, src, dst) && dst !in k.nodes ==>
                  k' == mid && Taken(k, e, [], mid))
  {
    hide FaultsAfter, Down, Cut;
    OnlyEarliest(k, e);
    assert k.faults == FaultsAfter(k.trace);
    DownIsCrashed(k.trace, dst);
    CutIsPartitioned(k.trace, src, dst);
    hide Inv, IsPartitioned, IsEarliest, Perform;
    var popped := Popped(k, e);
    mid := popped.(inFlight := k.inFlight - {e.kind.id});
    if dst in k.faults.crashed {
      mid := Trace1(mid, Dropped(e.time, e.seqNo, e.kind.id, src, dst, NodeCrashed));
    } else if IsPartitioned(k.faults, src, dst) {
      mid := Trace1(mid, Dropped(e.time, e.seqNo, e.kind.id, src, dst, PartitionedAtArrival));
    } else if dst in k.nodes {
      mid := Trace1(mid, Delivered(e.time, e.seqNo, e.kind.id, src, dst));
    } else {
      mid := mid.(strayed := mid.strayed + {e.kind.id});
      assert mid.trace + [] == mid.trace;
    }
  }

  /** A due timer of a crashed node is dropped; of a registered node it fires and runs the
      callback; otherwise it is lost without an entry. */
  lemma {:induction false} TimerFate(k: Core, until: Time, ops: seq<Op>, e: Event) returns (mid: Core)
    requires Inv(k) && IsEarliest(k.queue, e) && e.time <= until && e.kind.Timer?
    ensures var node, timerId, k' := e.kind.node, e.kind.timerId, Turn(k, until, ops);
            && mid.inFlight == k.inFlight && mid.faults == k.faults && mid.nextSeq == k.nextSeq
            && (Down(k.trace, node) ==>
                  k' == mid && Taken(k, e, [TimerDropped(e.time, e.seqNo, node, timerId)], mid))
            && (!Down(k.trace, node) && node in k.nodes ==>
                  k' == Perform(mid, node, ops) && Taken(k, e, [TimerFired(e.time, e.seqNo, node, timerId)], mid))
            && (!Down(k.trace, node) && node !in k.nodes ==> k' == mid && Taken(k, e, [], mid))
  {
    hide FaultsAfter, Down;
    OnlyEarliest(k, e);
    assert k.faults == FaultsAfter(k.trace);
    DownIsCrashed(k.trace, e.kind.node);
    hide Inv, IsEarliest, Perform;
    mid := Popped(k, e);
    if e.kind.node in k.faults.crashed {
      mid := Trace1(mid, TimerDropped(e.time, e.seqNo, e.kind.node, e.kind.timerId));
    } else if e.kind.node in k.nodes {
      mid := Trace1(mid, TimerFired(e.time, e.seqNo, e.kind.node, e.kind.timerId));
    } else {
      assert mid.trace + [] == mid.trace;
    }
  }

  /** A due fault is recorded at its time and is from then on the last word on what it is
      about; only restarting a registered node runs a callback. */
  lemma {:induction false} FaultFate(k: Core, until: Time, ops: seq<Op>, e: Event) returns (mid: Core)
    requires Inv(k) && IsEarliest(k.queue, e) && e.time <= until && e.kind.FaultEvent?
    ensures var cmd, k' := e.kind.cmd, Turn(k, until, ops);
            var shown := if cmd.ClearSlow? then SlowNode(cmd.node, 1) else cmd;
            && mid.inFlight == k.inFlight && mid.nextSeq == k.nextSeq + 1
            && Taken(k, e, [FaultApplied(e.time, k.nextSeq, shown)], mid)
            && mid.faults == FaultsAfter(mid.trace)
            && k' == if cmd.Restart? && cmd.node in k.nodes then Perform(mid, cmd.node, ops) else mid
  {
    OnlyEarliest(k, e);
    hide IsEarliest, Perform;
    var popped := Popped(k, e);
    mid := Record(popped.(faults := Affected(k.faults, e.kind.cmd)), FaultApplied(e.time, k.nextSeq, AsRecorded(e.kind.cmd)));
    assert mid.trace[..|k.trace|] == k.trace;
    AffectedAsRecorded(k.faults, e.kind.cmd);
  }

  /** The next event is the one of least time, and of those the one scheduled first. */
  lemma {:induction false} EarliestMeaning(queue: set<Event>, e: Event)
    requires DistinctSeqs(queue) && queue != {}
    ensures Earliest(queue) == e <==>
            e in queue && forall f | f in queue && f != e :: e.time < f.time || (e.time == f.time && e.seqNo < f.seqNo)
  {
    var m := Earliest(queue);
    assert forall f | f in queue :: Before(m, f);
    if e in queue && e != m {
      assert Before(m, e) && e.seqNo != m.seqNo;
    }
  }

  /** The queue empties in order of time, and at one time in order of scheduling. */
  lemma {:induction false} DrainedByTime(queue: set<Event>)
    requires DistinctSeqs(queue)
    ensures var d := Drained(queue);
            && multiset(d) == multiset(queue)
            && forall i, j | 0 <= i < j < |d| :: d[i].time < d[j].time || (d[i].time == d[j].time && d[i].seqNo < d[j].seqNo)
  {
    var d := Drained(queue);
    DrainedInOrder(queue);
    DrainedOnce(queue);
    forall i, j | 0 <= i < j < |d| ensures d[i].time < d[j].time || (d[i].time == d[j].time && d[i].seqNo < d[j].seqNo) {
      assert d[i] in d && d[j] in d && Before(d[i], d[j]);
    }
  }

  lemma {:induction false} DrainedOnce(queue: set<Event>)
    requires DistinctSeqs(queue)
    ensures multiset(Drained(queue)) == multiset(queue)
    decreases |queue|
  {
    hide Before, Earliest, IsEarliest;
    if queue == {} {
    } else {
      var e := Earliest(queue);
      DrainedOnce(queue - {e});
      assert multiset(queue) == multiset(queue - {e}) + multiset{e};
    }
  }

  /** A fault can be planned for now or later, and is then queued for that time; planning one
      for the past is refused and changes nothing. */
  lemma {:induction false} PlanFate(k: Core, at: Time, cmd: FaultCommand)
    requires Inv(k)
    ensures DistinctSeqs(k.queue)
    ensures var k' := Next(k, Plan(at, cmd));
            && k'.trace == k.trace && k'.now == k.now && k'.faults == k.faults
            && (at >= k.now ==> Event(at, k.nextSeq, FaultEvent(cmd)) in k'.queue && k.queue < k'.queue && k'.nextSeq == k.nextSeq + 1)
            && (at < k.now ==> k' == k)
  {
    InvOrders(k);
    if at >= k.now {
      assert forall f | f in k.queue :: f.seqNo < k.nextSeq;
      assert Event(at, k.nextSeq, FaultEvent(cmd)) !in k.queue;
    }
  }

  lemma {:induction false} OnlyEarliest(k: Core, e: Event)
    requires Inv(k) && IsEarliest(k.queue, e)
    ensures k.queue != {} && DistinctSeqs(k.queue) && Earliest(k.queue) == e
  {
    InvOrders(k);
    hide Inv;
    var f := Earliest(k.queue);
    assert Before(e, f) && Before(f, e);
  }
}
