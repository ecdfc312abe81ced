/** The discrete-event kernel: a queue ordered by time and sequence number, messages in
    flight, injected faults, and the trace of everything that happened. */
module Kernel {
  import opened Proposals

  const MAX_TIME: nat := 0xFFFF_FFFF_FFFF_FFFF

  type Time = t: nat | t <= MAX_TIME

  function Advance(t: Time, delta: nat): (t': Time)
    ensures t <= t'
  {
    if t + delta <= MAX_TIME then t + delta else MAX_TIME
  }

  function SaturatingMul(a: nat, b: nat): nat {
    if a * b <= MAX_TIME then a * b else MAX_TIME
  }

  function AtLeastOne(d: nat): nat {
    if d == 0 then 1 else d
  }

  // ------------------------------------------------------------------------------- faults

  datatype FaultCommand =
    | Crash(node: nat)
    | Restart(node: nat)
    | Partition(groupA: set<nat>, groupB: set<nat>)
    | Heal
    | SlowNode(node: nat, multiplier: nat)
    | ClearSlow(node: nat)

  datatype FaultState = FaultState(crashed: set<nat>, partition: Option<(set<nat>, set<nat>)>, slow: map<nat, nat>)

  const NO_FAULTS: FaultState := FaultState({}, None, map[])

  function Affected(f: FaultState, cmd: FaultCommand): FaultState {
    match cmd
    case Crash(n) => f.(crashed := f.crashed + {n})
    case Restart(n) => f.(crashed := f.crashed - {n})
    case Partition(a, b) => f.(partition := Some((a, b)))
    case Heal => f.(partition := None)
    case SlowNode(n, m) => f.(slow := if m <= 1 then f.slow - {n} else f.slow[n := m])
    case ClearSlow(n) => f.(slow := f.slow - {n})
  }

  predicate IsPartitioned(f: FaultState, a: nat, b: nat) {
    f.partition.Some?
    && var (g, h) := f.partition.value;
    (a in g && b in h) || (a in h && b in g)
  }

  function SlowMultiplier(f: FaultState, src: nat, dst: nat): nat {
    var s, d := if src in f.slow then f.slow[src] else 1, if dst in f.slow then f.slow[dst] else 1;
    if s >= d then s else d
  }

  // -------------------------------------------------------------------------------- queue

  datatype EventKind = Timer(node: nat, timerId: nat) | Arrival(id: nat) | FaultEvent(cmd: FaultCommand)

  datatype Event = Event(time: Time, seqNo: nat, kind: EventKind)

  predicate Before(e: Event, f: Event) {
    e.time < f.time || (e.time == f.time && e.seqNo <= f.seqNo)
  }

  ghost predicate IsEarliest(queue: set<Event>, e: Event) {
    e in queue && forall f | f in queue :: Before(e, f)
  }

  lemma {:induction false} EarliestExists(queue: set<Event>)
    requires queue != {}
    ensures exists e :: IsEarliest(queue, e)
    decreases |queue|
  {
    var x :| x in queue;
    var rest := queue - {x};
    assert forall f :: f in queue <==> f in rest || f == x;
    if rest == {} {
      assert IsEarliest(queue, x);
    } else {
      EarliestExists(rest);
      var m :| IsEarliest(rest, m);
      assert IsEarliest(queue, if Before(x, m) then x else m);
    }
  }

  ghost predicate DistinctSeqs(queue: set<Event>) {
    forall e, f | e in queue && f in queue && e.seqNo == f.seqNo :: e == f
  }

  /** The next event. Sequence numbers are never reused, so there is only one candidate. */
  function Earliest(queue: set<Event>): (e: Event)
    requires queue != {} && DistinctSeqs(queue)
    ensures e in queue && IsEarliest(queue, e)
  {
    EarliestExists(queue);
    assert exists e :: e in queue && forall f | f in queue :: Before(e, f) by {
      var e :| IsEarliest(queue, e);
    }
    var e :| e in queue && forall f | f in queue :: Before(e, f);
    e
  }

  /** The queue popped until it is empty. */
  function Drained(queue: set<Event>): seq<Event>
    requires DistinctSeqs(queue)
    decreases |queue|
  {
    if queue == {} then []
    else
      var e := Earliest(queue);
      [e] + Drained(queue - {e})
  }

  lemma {:induction false} DrainedNext(queue: set<Event>, e: Event, rest: seq<Event>)
    requires IsEarliest(queue, e) && forall f :: f in rest <==> f in queue && f != e
    requires forall i, j | 0 <= i < j < |rest| :: Before(rest[i], rest[j]) && rest[i] != rest[j]
    ensures var d := [e] + rest;
            && (forall f :: f in d <==> f in queue)
            && (forall i, j | 0 <= i < j < |d| :: Before(d[i], d[j]) && d[i] != d[j])
  {
    hide Before;
    forall j | 0 <= j < |rest| ensures Before(e, rest[j]) && rest[j] != e {
      assert rest[j] in rest;
    }
  }

  /** Popping yields every event exactly once, in strictly increasing (time, sequence) order,
      whatever order they were pushed in. */
  lemma {:induction false} DrainedInOrder(queue: set<Event>)
    requires DistinctSeqs(queue)
    ensures var d := Drained(queue);
            && (forall e :: e in d <==> e in queue)
            && (forall i, j | 0 <= i < j < |d| :: Before(d[i], d[j]) && d[i] != d[j])
    decreases |queue|
  {
    hide Before, Earliest, IsEarliest;
    if queue == {} {
    } else {
      var e := Earliest(queue);
      DrainedInOrder(queue - {e});
      DrainedNext(queue, e, Drained(queue - {e}));
    }
  }

  // -------------------------------------------------------------------------------- trace

  datatype DropReason = NodeCrashed | Partitioned | Scheduler | PartitionedAtArrival

  datatype TraceEvent =
    | Sent(time: Time, seqNo: nat, id: nat, src: nat, dst: nat)
    | Delivered(time: Time, seqNo: nat, id: nat, src: nat, dst: nat)
    | Dropped(time: Time, seqNo: nat, id: nat, src: nat, dst: nat, reason: DropReason)
    | TimerScheduled(time: Time, seqNo: nat, node: nat, timerId: nat, fireAt: Time)
    | TimerFired(time: Time, seqNo: nat, node: nat, timerId: nat)
    | TimerDropped(time: Time, seqNo: nat, node: nat, timerId: nat)
    | FaultApplied(time: Time, seqNo: nat, cmd: FaultCommand)
    | LeaderChanged(time: Time, seqNo: nat, leader: Option<nat>)

  type Trace = seq<TraceEvent>

  /** The fault state the trace says the kernel is in. */
  function FaultsAfter(trace: Trace): FaultState {
    if trace == [] then NO_FAULTS
    else
      var f, e := FaultsAfter(trace[..|trace| - 1]), trace[|trace| - 1];
      if e.FaultApplied? then Affected(f, e.cmd) else f
  }

  predicate Launches(e: TraceEvent, id: nat) {
    e.Sent? && e.id == id
  }

  predicate Ends(e: TraceEvent, id: nat) {
    (e.Delivered? || e.Dropped?) && e.id == id
  }

  function Launched(trace: Trace, id: nat): nat {
    if trace == [] then 0
    else Launched(trace[..|trace| - 1], id) + if Launches(trace[|trace| - 1], id) then 1 else 0
  }

  function Ended(trace: Trace, id: nat): nat {
    if trace == [] then 0
    else Ended(trace[..|trace| - 1], id) + if Ends(trace[|trace| - 1], id) then 1 else 0
  }

  /** What a delivery or a drop claims is true of the faults in force at that moment. */
  predicate Honest(f: FaultState, e: TraceEvent) {
    && (e.Delivered? ==> e.dst !in f.crashed && !IsPartitioned(f, e.src, e.dst))
    && (e.Dropped? && e.reason.NodeCrashed? ==> e.src in f.crashed || e.dst in f.crashed)
    && (e.Dropped? && (e.reason.Partitioned? || e.reason.PartitionedAtArrival?) ==> IsPartitioned(f, e.src, e.dst))
    && (e.TimerFired? ==> e.node !in f.crashed)
    && (e.TimerDropped? ==> e.node in f.crashed)
  }

  ghost predicate TraceOk(trace: Trace, now: Time, faults: FaultState) {
    && faults == FaultsAfter(trace)
    && (forall i | 0 <= i < |trace| :: trace[i].time <= now)
    && (forall i, j | 0 <= i < j < |trace| :: trace[i].time <= trace[j].time)
    && (forall i | 0 <= i < |trace| :: Honest(FaultsAfter(trace[..i]), trace[i]))
  }

  lemma {:induction false} TraceTimes(trace: Trace, now: Time, e: TraceEvent)
    requires forall i | 0 <= i < |trace| :: trace[i].time <= now
    requires forall i, j | 0 <= i < j < |trace| :: trace[i].time <= trace[j].time
    requires e.time == now
    ensures var longer := trace + [e];
            && (forall i | 0 <= i < |longer| :: longer[i].time <= now)
            && (forall i, j | 0 <= i < j < |longer| :: longer[i].time <= longer[j].time)
  {
  }

  lemma {:induction false} TraceGrows(trace: Trace, now: Time, faults: FaultState, e: TraceEvent)
    requires TraceOk(trace, now, faults) && e.time == now && Honest(faults, e)
    ensures TraceOk(trace + [e], now, if e.FaultApplied? then Affected(faults, e.cmd) else faults)
  {
    hide Honest, Affected;
    var longer := trace + [e];
    assert longer[..|trace|] == trace;
    TraceTimes(trace, now, e);
    forall i | 0 <= i < |longer| ensures Honest(FaultsAfter(longer[..i]), longer[i]) {
      assert longer[..i] == trace[..i];
      assert trace[..|trace|] == trace;
    }
  }

  lemma {:induction false} Counts(trace: Trace, e: TraceEvent, id: nat)
    ensures Launched(trace + [e], id) == Launched(trace, id) + if Launches(e, id) then 1 else 0
    ensures Ended(trace + [e], id) == Ended(trace, id) + if Ends(e, id) then 1 else 0
  {
    assert (trace + [e])[..|trace|] == trace;
  }

  // --------------------------------------------------------------------------- the kernel

  datatype Envelope = Envelope(src: nat, dst: nat)

  /** `strayed` keeps account of messages that arrived where no node is registered, which the
      kernel lets vanish without a trace event. */
  datatype Core = Core(
    now: Time,
    nextSeq: nat,
    nextId: nat,
    trace: Trace,
    faults: FaultState,
    queue: set<Event>,
    inFlight: map<nat, Envelope>,
    nodes: set<nat>,
    strayed: set<nat>)

  const FRESH: Core := Core(0, 0, 0, [], NO_FAULTS, {}, map[], {}, {})

  /** The scheduler's verdict on one message. */
  datatype Decision = DeliverAfter(delay: nat) | DropIt

  function Record(k: Core, e: TraceEvent): Core {
    k.(trace := k.trace + [e], nextSeq := k.nextSeq + 1)
  }

  function Drop(k: Core, id: nat, src: nat, dst: nat, reason: DropReason): Core {
    Record(k, Dropped(k.now, k.nextSeq, id, src, dst, reason))
  }

  function Launch(k: Core, src: nat, dst: nat): Core {
    Record(k, Sent(k.now, k.nextSeq, k.nextId, src, dst)).(nextId := k.nextId + 1)
  }

  function Fly(k: Core, id: nat, src: nat, dst: nat, delay: nat): Core {
    var total := AtLeastOne(SaturatingMul(delay, SlowMultiplier(k.faults, src, dst)));
    k.(nextSeq := k.nextSeq + 1,
       queue := k.queue + {Event(Advance(k.now, total), k.nextSeq, Arrival(id))},
       inFlight := k.inFlight[id := Envelope(src, dst)])
  }

  function Send(k: Core, src: nat, dst: nat, decision: Decision): Core {
    var id, sent := k.nextId, Launch(k, src, dst);
    if src in k.faults.crashed || dst in k.faults.crashed then Drop(sent, id, src, dst, NodeCrashed)
    else if IsPartitioned(k.faults, src, dst) then Drop(sent, id, src, dst, Partitioned)
    else if decision.DropIt? then Drop(sent, id, src, dst, Scheduler)
    else Fly(sent, id, src, dst, decision.delay)
  }

  function ScheduleTimer(k: Core, node: nat, after: nat, timerId: nat): Core {
    var fireAt := Advance(k.now, AtLeastOne(after));
    var k' := Record(k, TimerScheduled(k.now, k.nextSeq, node, timerId, fireAt));
    k'.(queue := k'.queue + {Event(fireAt, k.nextSeq, Timer(node, timerId))})
  }

  /** What a node's callback asks of the kernel. */
  datatype Op = SendOp(dst: nat, decision: Decision) | TimerOp(after: nat, timerId: nat)

  function Perform(k: Core, self: nat, ops: seq<Op>): Core {
    if ops == [] then k
    else
      var k', op := Perform(k, self, ops[..|ops| - 1]), ops[|ops| - 1];
      match op
      case SendOp(dst, decision) => Send(k', self, dst, decision)
      case TimerOp(after, timerId) => ScheduleTimer(k', self, after, timerId)
  }

  /** How a command appears in the trace: clearing a slowdown is setting it to one. */
  function AsRecorded(cmd: FaultCommand): FaultCommand {
    if cmd.ClearSlow? then SlowNode(cmd.node, 1) else cmd
  }

  /** Apply a fault; a restarted node that is registered runs its restart callback. */
  function ApplyFault(k: Core, cmd: FaultCommand, ops: seq<Op>): Core {
    var k' := Record(k.(faults := Affected(k.faults, cmd)), FaultApplied(k.now, k.nextSeq, AsRecorded(cmd)));
    if cmd.Restart? && cmd.node in k.nodes then Perform(k', cmd.node, ops) else k'
  }

  function Trace1(k: Core, e: TraceEvent): Core {
    k.(trace := k.trace + [e])
  }

  function DispatchTimer(k: Core, node: nat, timerId: nat, seqNo: nat, ops: seq<Op>): Core {
    if node in k.faults.crashed then Trace1(k, TimerDropped(k.now, seqNo, node, timerId))
    else if node in k.nodes then Perform(Trace1(k, TimerFired(k.now, seqNo, node, timerId)), node, ops)
    else k
  }

  function DispatchArrival(k: Core, id: nat, seqNo: nat, ops: seq<Op>): Core {
    if id !in k.inFlight then k
    else
      var Envelope(src, dst) := k.inFlight[id];
      var k' := k.(inFlight := k.inFlight - {id});
      if dst in k.faults.crashed then Trace1(k', Dropped(k.now, seqNo, id, src, dst, NodeCrashed))
      else if IsPartitioned(k.faults, src, dst) then Trace1(k', Dropped(k.now, seqNo, id, src, dst, PartitionedAtArrival))
      else if dst in k.nodes then Perform(Trace1(k', Delivered(k.now, seqNo, id, src, dst)), dst, ops)
      else k'.(strayed := k'.strayed + {id})
  }

  /** One iteration of the event loop. */
  function Turn(k: Core, until: Time, ops: seq<Op>): Core
    requires DistinctSeqs(k.queue)
  {
    if k.queue == {} then k
    else
      var e := Earliest(k.queue);
      if e.time > until then k
      else
        var k' := k.(queue := k.queue - {e}, now := e.time);
        match e.kind
        case Timer(node, timerId) => DispatchTimer(k', node, timerId, e.seqNo, ops)
        case Arrival(id) => DispatchArrival(k', id, e.seqNo, ops)
        case FaultEvent(cmd) => ApplyFault(k', cmd, ops)
  }

  // -------------------------------------------------------------------------- invariants

  ghost predicate QueueOk(queue: set<Event>, now: Time, nextSeq: nat) {
    && DistinctSeqs(queue)
    && forall e | e in queue :: now <= e.time && e.seqNo < nextSeq
  }

  /** Every message in flight has exactly one queued arrival, and nothing else has any. */
  ghost predicate FlightOk(queue: set<Event>, inFlight: map<nat, Envelope>) {
    && (forall e | e in queue && e.kind.Arrival? :: e.kind.id in inFlight)
    && (forall id | id in inFlight :: Queued(queue, id))
    && (forall e, f | e in queue && f in queue && e.kind.Arrival? && e.kind == f.kind :: e == f)
  }

  ghost predicate Queued(queue: set<Event>, id: nat) {
    exists e :: e in queue && e.kind == Arrival(id)
  }

  function One(b: bool): nat {
    if b then 1 else 0
  }

  /** A message sent is in flight, or ended once, or strayed, and only one of these. */
  ghost predicate Accounted(k: Core, id: nat) {
    && Launched(k.trace, id) == One(id < k.nextId)
    && Ended(k.trace, id) + One(id in k.inFlight) + One(id in k.strayed) == One(id < k.nextId)
  }

  ghost predicate Inv(k: Core) {
    && TraceOk(k.trace, k.now, k.faults)
    && QueueOk(k.queue, k.now, k.nextSeq)
    && FlightOk(k.queue, k.inFlight)
    && forall id: nat :: Accounted(k, id)
  }

  lemma {:induction false} FreshIsOk()
    ensures Inv(FRESH)
  {
  }

  /** Message `id` has been sent but is nowhere yet; all else is as it should be. */
  ghost predicate Loose(k: Core, id: nat) {
    && TraceOk(k.trace, k.now, k.faults)
    && QueueOk(k.queue, k.now, k.nextSeq)
    && FlightOk(k.queue, k.inFlight)
    && id < k.nextId && id !in k.inFlight && id !in k.strayed
    && Launched(k.trace, id) == 1 && Ended(k.trace, id) == 0
    && forall j: nat | j != id :: Accounted(k, j)
  }

  lemma {:induction false} AccountUnmoved(k: Core, e: TraceEvent, id: nat)
    requires Accounted(k, id) && !Launches(e, id) && !Ends(e, id)
    ensures Accounted(Trace1(k, e), id)
  {
    Counts(k.trace, e, id);
  }

  lemma {:induction false} QuietTrace(k: Core, e: TraceEvent)
    requires Inv(k) && e.time == k.now && Honest(k.faults, e)
    requires !e.Sent? && !e.Delivered? && !e.Dropped? && !e.FaultApplied?
    ensures Inv(Trace1(k, e))
  {
    hide TraceOk, FlightOk, Honest, QueueOk, Accounted;
    TraceGrows(k.trace, k.now, k.faults, e);
    var k' := Trace1(k, e);
    forall id: nat ensures Accounted(k', id) {
      assert Accounted(k, id);
      AccountUnmoved(k, e, id);
    }
  }

  lemma {:induction false} QuietEvent(k: Core, e: TraceEvent)
    requires Inv(k) && e.time == k.now && Honest(k.faults, e)
    requires !e.Sent? && !e.Delivered? && !e.Dropped? && !e.FaultApplied?
    ensures Inv(Record(k, e)) && Inv(Trace1(k, e))
  {
    hide Inv, Honest;
    QuietTrace(k, e);
    InvLaterSeq(Trace1(k, e));
  }

  lemma {:induction false} LaunchedOnce(k: Core, e: TraceEvent, id: nat)
    requires Accounted(k, id) && e.Sent? && e.id == k.nextId
    ensures id != k.nextId ==> Accounted(Record(k, e).(nextId := k.nextId + 1), id)
    ensures id == k.nextId ==> Launched(k.trace + [e], id) == 1 && Ended(k.trace + [e], id) == 0
                               && id !in k.inFlight && id !in k.strayed
  {
    Counts(k.trace, e, id);
  }

  lemma {:induction false} LaunchLoosens(k: Core, src: nat, dst: nat)
    requires Inv(k)
    ensures Loose(Launch(k, src, dst), k.nextId)
  {
    hide TraceOk, FlightOk, Launched, Ended;
    var e := Sent(k.now, k.nextSeq, k.nextId, src, dst);
    TraceGrows(k.trace, k.now, k.faults, e);
    var k' := Launch(k, src, dst);
    assert Accounted(k, k.nextId);
    LaunchedOnce(k, e, k.nextId);
    forall id: nat | id != k.nextId ensures Accounted(k', id) {
      assert Accounted(k, id);
      LaunchedOnce(k, e, id);
    }
  }

  lemma {:induction false} EndedOnce(k: Core, e: TraceEvent, id: nat, j: nat)
    requires Ends(e, id) && id < k.nextId && id !in k.inFlight && id !in k.strayed
    requires Launched(k.trace, id) == 1 && Ended(k.trace, id) == 0
    requires j != id ==> Accounted(k, j)
    ensures Accounted(Trace1(k, e), j)
  {
    Counts(k.trace, e, j);
  }

  lemma {:induction false} EndTrace(k: Core, id: nat, e: TraceEvent)
    requires Loose(k, id) && Ends(e, id) && e.time == k.now && Honest(k.faults, e)
    ensures Inv(Trace1(k, e))
  {
    hide TraceOk, FlightOk, Honest, QueueOk, Launched, Ended, Accounted;
    TraceGrows(k.trace, k.now, k.faults, e);
    forall j: nat ensures Accounted(Trace1(k, e), j) {
      EndedOnce(k, e, id, j);
    }
  }

  lemma {:induction false} EndSettles(k: Core, id: nat, e: TraceEvent)
    requires Loose(k, id) && Ends(e, id) && e.time == k.now && Honest(k.faults, e)
    ensures Inv(Record(k, e)) && Inv(Trace1(k, e))
  {
    hide Inv, Loose, Honest, Ends;
    EndTrace(k, id, e);
    InvLaterSeq(Trace1(k, e));
  }

  lemma {:induction false} StraySettles(k: Core, id: nat)
    requires Loose(k, id)
    ensures Inv(k.(strayed := k.strayed + {id}))
  {
    hide TraceOk, QueueOk, FlightOk;
    forall j: nat ensures Accounted(k.(strayed := k.strayed + {id}), j) {
      assert j != id ==> Accounted(k, j);
    }
  }

  lemma {:induction false} FlightGrows(queue: set<Event>, inFlight: map<nat, Envelope>, e: Event, id: nat, envelope: Envelope)
    requires FlightOk(queue, inFlight) && id !in inFlight && e.kind == Arrival(id)
    ensures FlightOk(queue + {e}, inFlight[id := envelope])
  {
    var queue', inFlight' := queue + {e}, inFlight[id := envelope];
    assert e in queue';
    forall j | j in inFlight' ensures Queued(queue', j) {
      if j != id {
        var f :| f in queue && f.kind == Arrival(j);
        assert f in queue';
      }
    }
  }

  lemma {:induction false} QueueGrows(queue: set<Event>, now: Time, nextSeq: nat, e: Event)
    requires QueueOk(queue, now, nextSeq) && e.seqNo == nextSeq && now <= e.time
    ensures QueueOk(queue + {e}, now, nextSeq + 1)
  {
  }

  lemma {:induction false} FlySettles(k: Core, id: nat, src: nat, dst: nat, delay: nat)
    requires Loose(k, id)
    ensures Inv(Fly(k, id, src, dst, delay))
  {
    hide TraceOk, SaturatingMul, SlowMultiplier, FlightOk, QueueOk;
    var total := AtLeastOne(SaturatingMul(delay, SlowMultiplier(k.faults, src, dst)));
    var e := Event(Advance(k.now, total), k.nextSeq, Arrival(id));
    QueueGrows(k.queue, k.now, k.nextSeq, e);
    FlightGrows(k.queue, k.inFlight, e, id, Envelope(src, dst));
    forall j: nat ensures Accounted(Fly(k, id, src, dst, delay), j) {
      assert j != id ==> Accounted(k, j);
    }
  }

  lemma {:induction false} SendKeepsInv(k: Core, src: nat, dst: nat, decision: Decision)
    requires Inv(k)
    ensures Inv(Send(k, src, dst, decision))
  {
    hide Inv, Loose;
    var id, sent := k.nextId, Launch(k, src, dst);
    LaunchLoosens(k, src, dst);
    if src in k.faults.crashed || dst in k.faults.crashed {
      EndSettles(sent, id, Dropped(sent.now, sent.nextSeq, id, src, dst, NodeCrashed));
    } else if IsPartitioned(k.faults, src, dst) {
      EndSettles(sent, id, Dropped(sent.now, sent.nextSeq, id, src, dst, Partitioned));
    } else if decision.DropIt? {
      EndSettles(sent, id, Dropped(sent.now, sent.nextSeq, id, src, dst, Scheduler));
    } else {
      FlySettles(sent, id, src, dst, decision.delay);
    }
  }

  lemma {:induction false} TimerJoins(k: Core, e: Event)
    requires Inv(k) && e.seqNo < k.nextSeq && k.now <= e.time && !e.kind.Arrival?
    requires forall f | f in k.queue :: f.seqNo != e.seqNo
    ensures Inv(k.(queue := k.queue + {e}))
  {
    hide TraceOk;
    var queue' := k.queue + {e};
    forall id | id in k.inFlight ensures Queued(queue', id) {
      var f :| f in k.queue && f.kind == Arrival(id);
      assert f in queue';
    }
    forall id: nat ensures Accounted(k.(queue := queue'), id) {
      assert Accounted(k, id);
    }
  }

  lemma {:induction false} TimerKeepsInv(k: Core, node: nat, after: nat, timerId: nat)
    requires Inv(k)
    ensures Inv(ScheduleTimer(k, node, after, timerId))
  {
    var fireAt := Advance(k.now, AtLeastOne(after));
    QuietEvent(k, TimerScheduled(k.now, k.nextSeq, node, timerId, fireAt));
    TimerJoins(Record(k, TimerScheduled(k.now, k.nextSeq, node, timerId, fireAt)), Event(fireAt, k.nextSeq, Timer(node, timerId)));
  }

  /** A callback may queue and record, but changes neither the clock nor the faults. */
  lemma {:induction false} PerformKeepsInv(k: Core, self: nat, ops: seq<Op>)
    requires Inv(k)
    ensures var k' := Perform(k, self, ops);
            Inv(k') && k'.now == k.now && k'.faults == k.faults && k'.nodes == k.nodes
  {
    hide Inv;
    if ops == [] {
    } else {
      var before, op := ops[..|ops| - 1], ops[|ops| - 1];
      PerformKeepsInv(k, self, before);
      match op
      case SendOp(dst, decision) => SendKeepsInv(Perform(k, self, before), self, dst, decision);
      case TimerOp(after, timerId) => TimerKeepsInv(Perform(k, self, before), self, after, timerId);
    }
  }

  lemma {:induction false} AffectedAsRecorded(f: FaultState, cmd: FaultCommand)
    ensures Affected(f, AsRecorded(cmd)) == Affected(f, cmd)
  {
  }

  lemma {:induction false} FaultKeepsInv(k: Core, cmd: FaultCommand, ops: seq<Op>)
    requires Inv(k)
    ensures Inv(ApplyFault(k, cmd, ops)) && ApplyFault(k, cmd, ops).now == k.now
  {
    FaultRecorded(k, cmd);
    hide Inv;
    var k' := Record(k.(faults := Affected(k.faults, cmd)), FaultApplied(k.now, k.nextSeq, AsRecorded(cmd)));
    if cmd.Restart? && cmd.node in k.nodes {
      PerformKeepsInv(k', cmd.node, ops);
    }
  }

  lemma {:induction false} AccountSame(k: Core, k': Core, id: nat)
    requires Accounted(k, id)
    requires k'.trace == k.trace && k'.nextId == k.nextId && k'.inFlight == k.inFlight && k'.strayed == k.strayed
    ensures Accounted(k', id)
  {
  }

  lemma {:induction false} FaultRecorded(k: Core, cmd: FaultCommand)
    requires Inv(k)
    ensures Inv(Record(k.(faults := Affected(k.faults, cmd)), FaultApplied(k.now, k.nextSeq, AsRecorded(cmd))))
  {
    var e := FaultApplied(k.now, k.nextSeq, AsRecorded(cmd));
    var k' := Record(k.(faults := Affected(k.faults, cmd)), e);
    AffectedAsRecorded(k.faults, cmd);
    hide TraceOk, FlightOk, Affected, Accounted;
    TraceGrows(k.trace, k.now, k.faults, e);
    forall id: nat ensures Accounted(k', id) {
      AccountUnmoved(k, e, id);
      AccountSame(Trace1(k, e), k', id);
    }
  }

  lemma {:induction false} TimePasses(trace: Trace, now: Time, faults: FaultState, later: Time)
    requires TraceOk(trace, now, faults) && now <= later
    ensures TraceOk(trace, later, faults)
  {
  }

  lemma {:induction false} QueuePops(queue: set<Event>, now: Time, nextSeq: nat, e: Event)
    requires QueueOk(queue, now, nextSeq) && IsEarliest(queue, e)
    ensures QueueOk(queue - {e}, e.time, nextSeq)
  {
  }

  /** The clock moves to the earliest event, which leaves the queue. */
  function Popped(k: Core, e: Event): Core {
    k.(queue := k.queue - {e}, now := e.time)
  }

  lemma {:induction false} PopOther(k: Core, e: Event)
    requires Inv(k) && IsEarliest(k.queue, e) && !e.kind.Arrival?
    ensures Inv(Popped(k, e)) && k.now <= e.time
  {
    TimePasses(k.trace, k.now, k.faults, e.time);
    QueuePops(k.queue, k.now, k.nextSeq, e);
    hide TraceOk, QueueOk;
    forall id | id in k.inFlight ensures Queued(k.queue - {e}, id) {
      var f :| f in k.queue && f.kind == Arrival(id);
      assert f in k.queue - {e};
    }
    forall id: nat ensures Accounted(Popped(k, e), id) {
      assert Accounted(k, id);
    }
  }

  lemma {:induction false} FlightPops(queue: set<Event>, inFlight: map<nat, Envelope>, e: Event)
    requires FlightOk(queue, inFlight) && e in queue && e.kind.Arrival?
    ensures e.kind.id in inFlight && FlightOk(queue - {e}, inFlight - {e.kind.id})
  {
    forall id | id in inFlight && id != e.kind.id ensures Queued(queue - {e}, id) {
      var f :| f in queue && f.kind == Arrival(id);
      assert f in queue - {e};
    }
  }

  lemma {:induction false} PopArrival(k: Core, e: Event)
    requires Inv(k) && IsEarliest(k.queue, e) && e.kind.Arrival?
    ensures k.now <= e.time && e.kind.id in k.inFlight
    ensures Loose(Popped(k, e).(inFlight := k.inFlight - {e.kind.id}), e.kind.id)
  {
    TimePasses(k.trace, k.now, k.faults, e.time);
    QueuePops(k.queue, k.now, k.nextSeq, e);
    FlightPops(k.queue, k.inFlight, e);
    hide TraceOk, QueueOk, FlightOk;
    var k' := Popped(k, e).(inFlight := k.inFlight - {e.kind.id});
    assert Accounted(k, e.kind.id);
    forall id: nat | id != e.kind.id ensures Accounted(k', id) {
      assert Accounted(k, id);
    }
  }

  lemma {:induction false} ArrivalKeepsInv(k: Core, id: nat, seqNo: nat, ops: seq<Op>)
    requires id in k.inFlight && Loose(k.(inFlight := k.inFlight - {id}), id)
    ensures Inv(DispatchArrival(k, id, seqNo, ops)) && DispatchArrival(k, id, seqNo, ops).now == k.now
  {
    hide Inv, Loose;
    var Envelope(src, dst) := k.inFlight[id];
    var k' := k.(inFlight := k.inFlight - {id});
    if dst in k.faults.crashed {
      EndSettles(k', id, Dropped(k.now, seqNo, id, src, dst, NodeCrashed));
    } else if IsPartitioned(k.faults, src, dst) {
      EndSettles(k', id, Dropped(k.now, seqNo, id, src, dst, PartitionedAtArrival));
    } else if dst in k.nodes {
      EndSettles(k', id, Delivered(k.now, seqNo, id, src, dst));
      PerformKeepsInv(Trace1(k', Delivered(k.now, seqNo, id, src, dst)), dst, ops);
    } else {
      StraySettles(k', id);
    }
  }

  lemma {:induction false} FiringKeepsInv(k: Core, node: nat, timerId: nat, seqNo: nat, ops: seq<Op>)
    requires Inv(k)
    ensures Inv(DispatchTimer(k, node, timerId, seqNo, ops)) && DispatchTimer(k, node, timerId, seqNo, ops).now == k.now
  {
    hide Inv;
    if node in k.faults.crashed {
      QuietEvent(k, TimerDropped(k.now, seqNo, node, timerId));
    } else if node in k.nodes {
      QuietEvent(k, TimerFired(k.now, seqNo, node, timerId));
      PerformKeepsInv(Trace1(k, TimerFired(k.now, seqNo, node, timerId)), node, ops);
    }
  }

  lemma {:induction false} InvOrders(k: Core)
    requires Inv(k)
    ensures DistinctSeqs(k.queue)
  {
  }

  lemma {:induction false} TurnKeepsInv(k: Core, until: Time, ops: seq<Op>)
    requires Inv(k)
    ensures DistinctSeqs(k.queue) && Inv(Turn(k, until, ops))
    ensures k.now <= Turn(k, until, ops).now
  {
    InvOrders(k);
    hide Inv, Loose, DistinctSeqs;
    if k.queue != {} && Earliest(k.queue).time <= until {
      var e := Earliest(k.queue);
      match e.kind
      case Timer(node, timerId) =>
        PopOther(k, e);
        FiringKeepsInv(Popped(k, e), node, timerId, e.seqNo, ops);
      case Arrival(id) =>
        PopArrival(k, e);
        ArrivalKeepsInv(Popped(k, e), id, e.seqNo, ops);
      case FaultEvent(cmd) =>
        PopOther(k, e);
        FaultKeepsInv(Popped(k, e), cmd, ops);
    }
  }

  // ---------------------------------------------------------------------------- whole runs

  /** Everything a scenario can do to a kernel. */
  datatype Move =
    | Inject(src: nat, dst: nat, decision: Decision)
    | InjectTimer(node: nat, after: nat, timerId: nat)
    | Inflict(cmd: FaultCommand, ops: seq<Op>)
    | Plan(at: Time, cmd: FaultCommand)
    | AddNode(id: nat)
    | SetLeader(leader: Option<nat>)
    | Advanced(until: Time, ops: seq<Op>)

  /** Planning a fault in the past is refused. */
  function Next(k: Core, m: Move): Core
    requires DistinctSeqs(k.queue)
  {
    match m
    case Inject(src, dst, decision) => Send(k, src, dst, decision)
    case InjectTimer(node, after, timerId) => ScheduleTimer(k, node, after, timerId)
    case Inflict(cmd, ops) => ApplyFault(k, cmd, ops)
    case Plan(at, cmd) =>
      if at < k.now then k
      else k.(nextSeq := k.nextSeq + 1, queue := k.queue + {Event(at, k.nextSeq, FaultEvent(cmd))})
    case AddNode(id) => k.(nodes := k.nodes + {id})
    case SetLeader(leader) => Record(k, LeaderChanged(k.now, k.nextSeq, leader))
    case Advanced(until, ops) => Turn(k, until, ops)
  }

  lemma {:induction false} PlanKeepsInv(k: Core, at: Time, cmd: FaultCommand)
    requires Inv(k) && k.now <= at
    ensures Inv(k.(nextSeq := k.nextSeq + 1, queue := k.queue + {Event(at, k.nextSeq, FaultEvent(cmd))}))
  {
    InvLaterSeq(k);
    TimerJoins(k.(nextSeq := k.nextSeq + 1), Event(at, k.nextSeq, FaultEvent(cmd)));
  }

  lemma {:induction false} InvLaterSeq(k: Core)
    requires Inv(k)
    ensures Inv(k.(nextSeq := k.nextSeq + 1)) && forall f | f in k.queue :: f.seqNo != k.nextSeq
  {
    hide TraceOk, FlightOk;
    var k' := k.(nextSeq := k.nextSeq + 1);
    forall id: nat ensures Accounted(k', id) {
      assert Accounted(k, id);
    }
  }

  lemma {:induction false} AddKeepsInv(k: Core, id: nat)
    requires Inv(k)
    ensures Inv(k.(nodes := k.nodes + {id}))
  {
    hide TraceOk, FlightOk, QueueOk;
    var k' := k.(nodes := k.nodes + {id});
    forall j: nat ensures Accounted(k', j) {
      assert Accounted(k, j);
    }
  }

  /** Only the event loop moves the clock. */
  lemma {:induction false} OnlyTurnsMoveTime(k: Core, m: Move)
    requires Inv(k) && DistinctSeqs(k.queue) && !m.Advanced?
    ensures Next(k, m).now == k.now
  {
    if m.Inflict? {
      FaultKeepsInv(k, m.cmd, m.ops);
    }
    hide Inv, DistinctSeqs, ApplyFault, IsPartitioned, SlowMultiplier, SaturatingMul;
  }

  lemma {:induction false} NextUnfolds(k: Core, m: Move)
    requires DistinctSeqs(k.queue)
    ensures m.Inject? ==> Next(k, m) == Send(k, m.src, m.dst, m.decision)
    ensures m.InjectTimer? ==> Next(k, m) == ScheduleTimer(k, m.node, m.after, m.timerId)
    ensures m.Inflict? ==> Next(k, m) == ApplyFault(k, m.cmd, m.ops)
    ensures m.Advanced? ==> Next(k, m) == Turn(k, m.until, m.ops)
  {
    hide Send, ScheduleTimer, ApplyFault, Turn;
  }

  lemma {:induction false} StillMovesKeepInv(k: Core, m: Move)
    requires Inv(k) && DistinctSeqs(k.queue) && (m.Plan? || m.AddNode? || m.SetLeader?)
    ensures Inv(Next(k, m))
  {
    hide Inv, DistinctSeqs, Send, ScheduleTimer, ApplyFault, Turn;
    match m
    case Plan(at, cmd) => if at >= k.now { PlanKeepsInv(k, at, cmd); }
    case AddNode(id) => AddKeepsInv(k, id);
    case SetLeader(leader) => QuietEvent(k, LeaderChanged(k.now, k.nextSeq, leader));
  }

  lemma {:induction false} NextKeepsInv(k: Core, m: Move)
    requires Inv(k)
    ensures DistinctSeqs(k.queue) && Inv(Next(k, m))
    ensures k.now <= Next(k, m).now
  {
    hide *;
    InvOrders(k);
    NextUnfolds(k, m);
    if m.Advanced? {
      TurnKeepsInv(k, m.until, m.ops);
    } else {
      OnlyTurnsMoveTime(k, m);
      match m
      case Inject(src, dst, decision) => SendKeepsInv(k, src, dst, decision);
      case InjectTimer(node, after, timerId) => TimerKeepsInv(k, node, after, timerId);
      case Inflict(cmd, ops) => FaultKeepsInv(k, cmd, ops);
      case _ => StillMovesKeepInv(k, m);
    }
  }

  /** The kernel after a scenario. */
  function After(moves: seq<Move>): (k: Core)
    ensures Inv(k)
  {
    if moves == [] then
      FreshIsOk();
      FRESH
    else
      var k := After(moves[..|moves| - 1]);
      NextKeepsInv(k, moves[|moves| - 1]);
      Next(k, moves[|moves| - 1])
  }

  /** Message conservation: on every run, each message sent is in flight with exactly one
      arrival queued, or was dropped or delivered exactly once, or strayed; never two of these. */
  lemma {:induction false} MessagesConserved(moves: seq<Move>, id: nat)
    ensures var k := After(moves);
            && Launched(k.trace, id) == One(id < k.nextId)
            && Ended(k.trace, id) + One(id in k.inFlight) + One(id in k.strayed) == One(id < k.nextId)
            && (id in k.inFlight <==> exists e :: e in k.queue && e.kind == Arrival(id))
            && forall e, f | e in k.queue && f in k.queue && e.kind == f.kind == Arrival(id) :: e == f
  {
    var k := After(moves);
    assert Accounted(k, id);
    assert id in k.inFlight ==> Queued(k.queue, id);
  }

  /** Nothing is ever delivered to a crashed node or across a partition in force, and no drop
      is blamed on a fault that is not. */
  lemma {:induction false} DeliveriesHonest(moves: seq<Move>, i: nat)
    requires i < |After(moves).trace|
    ensures Honest(FaultsAfter(After(moves).trace[..i]), After(moves).trace[i])
  {
    hide Honest, FaultsAfter;
  }

  /** Time never runs backwards, and never past an event still queued. */
  lemma {:induction false} TimeIsMonotone(moves: seq<Move>, more: seq<Move>)
    ensures After(moves).now <= After(moves + more).now
    ensures forall e | e in After(moves).queue :: After(moves).now <= e.time
    ensures forall i, j | 0 <= i < j < |After(moves).trace| :: After(moves).trace[i].time <= After(moves).trace[j].time
  {
    ClockAdvances(moves, more);
  }

  lemma {:induction false} ClockAdvances(moves: seq<Move>, more: seq<Move>)
    ensures After(moves).now <= After(moves + more).now
    decreases |more|
  {
    hide Inv, Next;
    if more == [] {
      assert moves + more == moves;
    } else {
      var n := |more| - 1;
      ClockAdvances(moves, more[..n]);
      assert (moves + more)[..|moves + more| - 1] == moves + more[..n];
      NextKeepsInv(After(moves + more[..n]), more[n]);
    }
  }
}
