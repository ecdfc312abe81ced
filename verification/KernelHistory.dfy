/** Where the kernel's trace entries come from: each delivery or drop from one send, each
    firing from one scheduling, over every run. */
module KernelHistory {
  import opened Kernel

  ghost predicate SentAs(trace: Trace, id: nat, src: nat, dst: nat) {
    exists j :: 0 <= j < |trace| && ShowsSend(trace[j], id, src, dst)
  }

  predicate ShowsSend(e: TraceEvent, id: nat, src: nat, dst: nat) {
    e.Sent? && e.id == id && e.src == src && e.dst == dst
  }

  ghost predicate SetAs(trace: Trace, seqNo: nat, node: nat, timerId: nat, at: Time) {
    exists j :: 0 <= j < |trace| && ShowsTimer(trace[j], seqNo, node, timerId, at)
  }

  predicate ShowsTimer(e: TraceEvent, seqNo: nat, node: nat, timerId: nat, at: Time) {
    e.TimerScheduled? && e.seqNo == seqNo && e.node == node && e.timerId == timerId && e.fireAt == at
  }

  predicate EndsTimer(e: TraceEvent) {
    e.TimerFired? || e.TimerDropped?
  }

  /** No timer set under `seqNo` has fired or been dropped. */
  ghost predicate Unspent(trace: Trace, seqNo: nat) {
    forall j | 0 <= j < |trace| && EndsTimer(trace[j]) :: trace[j].seqNo != seqNo
  }

  /** The entry has its cause among the entries before it. */
  ghost predicate Caused(before: Trace, e: TraceEvent) {
    && (e.Delivered? || e.Dropped? ==> SentAs(before, e.id, e.src, e.dst))
    && (EndsTimer(e) ==> SetAs(before, e.seqNo, e.node, e.timerId, e.time) && Unspent(before, e.seqNo))
  }

  ghost predicate AllCaused(trace: Trace) {
    forall i | 0 <= i < |trace| :: Caused(trace[..i], trace[i])
  }

  ghost predicate FlightsSent(trace: Trace, inFlight: map<nat, Envelope>) {
    forall id | id in inFlight :: SentAs(trace, id, inFlight[id].src, inFlight[id].dst)
  }

  ghost predicate TimersSet(trace: Trace, queue: set<Event>) {
    forall e | e in queue && e.kind.Timer? ::
      SetAs(trace, e.seqNo, e.kind.node, e.kind.timerId, e.time) && Unspent(trace, e.seqNo)
  }

  /** Every timer ever set is still queued for its time, or its time has come. */
  ghost predicate TimersWait(trace: Trace, queue: set<Event>, now: Time) {
    forall j | 0 <= j < |trace| && trace[j].TimerScheduled? ::
      trace[j].fireAt <= now || Event(trace[j].fireAt, trace[j].seqNo, Timer(trace[j].node, trace[j].timerId)) in queue
  }

  ghost predicate SeqsUsed(trace: Trace, nextSeq: nat) {
    forall j | 0 <= j < |trace| && EndsTimer(trace[j]) :: trace[j].seqNo < nextSeq
  }

  ghost predicate Told(k: Core) {
    && AllCaused(k.trace) && FlightsSent(k.trace, k.inFlight) && TimersSet(k.trace, k.queue)
    && TimersWait(k.trace, k.queue, k.now) && SeqsUsed(k.trace, k.nextSeq)
  }

  // ------------------------------------------------------------------------- one more entry

  lemma {:induction false} SentStays(trace: Trace, e: TraceEvent, id: nat, src: nat, dst: nat)
    requires SentAs(trace, id, src, dst)
    ensures SentAs(trace + [e], id, src, dst)
  {
    var j :| 0 <= j < |trace| && ShowsSend(trace[j], id, src, dst);
    assert (trace + [e])[j] == trace[j];
  }

  lemma {:induction false} SetStays(trace: Trace, e: TraceEvent, seqNo: nat, node: nat, timerId: nat, at: Time)
    requires SetAs(trace, seqNo, node, timerId, at)
    ensures SetAs(trace + [e], seqNo, node, timerId, at)
  {
    var j :| 0 <= j < |trace| && ShowsTimer(trace[j], seqNo, node, timerId, at);
    assert (trace + [e])[j] == trace[j];
  }

  lemma {:induction false} SetNow(trace: Trace, e: TraceEvent)
    requires e.TimerScheduled?
    ensures SetAs(trace + [e], e.seqNo, e.node, e.timerId, e.fireAt)
  {
    assert ShowsTimer((trace + [e])[|trace|], e.seqNo, e.node, e.timerId, e.fireAt);
  }

  lemma {:induction false} CausedGrows(trace: Trace, e: TraceEvent)
    requires AllCaused(trace) && Caused(trace, e)
    ensures AllCaused(trace + [e])
  {
    hide Caused;
    var longer := trace + [e];
    forall i | 0 <= i < |longer| ensures Caused(longer[..i], longer[i]) {
      assert longer[..i] == trace[..i];
      assert trace[..|trace|] == trace;
    }
  }

  /** Any entry but a scheduling may be recorded once it has its cause. */
  lemma {:induction false} ToldEntry(k: Core, e: TraceEvent)
    requires Told(k) && Caused(k.trace, e) && !e.TimerScheduled?
    requires EndsTimer(e) ==> e.seqNo < k.nextSeq && forall f | f in k.queue :: f.seqNo != e.seqNo
    ensures Told(Trace1(k, e))
  {
    hide SentAs, SetAs, Caused, AllCaused;
    CausedGrows(k.trace, e);
    forall id | id in k.inFlight
      ensures SentAs(k.trace + [e], id, k.inFlight[id].src, k.inFlight[id].dst)
    {
      SentStays(k.trace, e, id, k.inFlight[id].src, k.inFlight[id].dst);
    }
    forall f | f in k.queue && f.kind.Timer?
      ensures SetAs(k.trace + [e], f.seqNo, f.kind.node, f.kind.timerId, f.time)
    {
      SetStays(k.trace, e, f.seqNo, f.kind.node, f.kind.timerId, f.time);
    }
  }

  lemma {:induction false} ToldLater(k: Core)
    requires Told(k)
    ensures Told(k.(nextSeq := k.nextSeq + 1)) && forall id :: Told(k.(nextId := id))
  {
    hide AllCaused, FlightsSent, TimersSet, TimersWait;
  }

  lemma {:induction false} ToldRecord(k: Core, e: TraceEvent)
    requires Told(k) && Caused(k.trace, e) && !e.TimerScheduled? && !EndsTimer(e)
    ensures Told(Record(k, e))
  {
    hide Told, Caused;
    ToldEntry(k, e);
    ToldLater(Trace1(k, e));
  }

  // ------------------------------------------------------------------------ sends and timers

  lemma {:induction false} ToldDrop(k: Core, id: nat, src: nat, dst: nat, reason: DropReason)
    requires Told(k) && SentAs(k.trace, id, src, dst)
    ensures Told(Drop(k, id, src, dst, reason))
  {
    hide Told, SentAs;
    ToldRecord(k, Dropped(k.now, k.nextSeq, id, src, dst, reason));
  }

  lemma {:induction false} ToldFly(k: Core, id: nat, src: nat, dst: nat, delay: nat)
    requires Told(k) && SentAs(k.trace, id, src, dst)
    ensures Told(Fly(k, id, src, dst, delay))
  {
    hide SaturatingMul, SlowMultiplier, SentAs, SetAs, AllCaused, Unspent;
  }

  lemma {:induction false} ToldSend(k: Core, src: nat, dst: nat, decision: Decision)
    requires Told(k)
    ensures Told(Send(k, src, dst, decision))
  {
    hide Told, IsPartitioned, Fly;
    var id, sent := k.nextId, Launch(k, src, dst);
    var e := Sent(k.now, k.nextSeq, id, src, dst);
    ToldRecord(k, e);
    ToldLater(Record(k, e));
    assert ShowsSend(sent.trace[|k.trace|], id, src, dst);
    if src in k.faults.crashed || dst in k.faults.crashed {
      ToldDrop(sent, id, src, dst, NodeCrashed);
    } else if IsPartitioned(k.faults, src, dst) {
      ToldDrop(sent, id, src, dst, Partitioned);
    } else if decision.DropIt? {
      ToldDrop(sent, id, src, dst, Scheduler);
    } else {
      ToldFly(sent, id, src, dst, decision.delay);
    }
  }

  lemma {:induction false} ToldTimer(k: Core, node: nat, after: nat, timerId: nat)
    requires Told(k)
    ensures Told(ScheduleTimer(k, node, after, timerId))
  {
    SetNow(k.trace, TimerScheduled(k.now, k.nextSeq, node, timerId, Advance(k.now, AtLeastOne(after))));
    hide SentAs, SetAs, AllCaused;
    var fireAt := Advance(k.now, AtLeastOne(after));
    var e := TimerScheduled(k.now, k.nextSeq, node, timerId, fireAt);
    CausedGrows(k.trace, e);
    forall id | id in k.inFlight
      ensures SentAs(k.trace + [e], id, k.inFlight[id].src, k.inFlight[id].dst)
    {
      SentStays(k.trace, e, id, k.inFlight[id].src, k.inFlight[id].dst);
    }
    forall f | f in k.queue && f.kind.Timer?
      ensures SetAs(k.trace + [e], f.seqNo, f.kind.node, f.kind.timerId, f.time)
    {
      SetStays(k.trace, e, f.seqNo, f.kind.node, f.kind.timerId, f.time);
    }
  }

  lemma {:induction false} ToldPerform(k: Core, self: nat, ops: seq<Op>)
    requires Told(k)
    ensures Told(Perform(k, self, ops))
  {
    hide Told, Send, ScheduleTimer;
    if ops == [] {
    } else {
      var first, op := ops[..|ops| - 1], ops[|ops| - 1];
      ToldPerform(k, self, first);
      match op
      case SendOp(dst, decision) => ToldSend(Perform(k, self, first), self, dst, decision);
      case TimerOp(after, timerId) => ToldTimer(Perform(k, self, first), self, after, timerId);
    }
  }

  lemma {:induction false} ToldFault(k: Core, cmd: FaultCommand, ops: seq<Op>)
    requires Told(k)
    ensures Told(ApplyFault(k, cmd, ops))
  {
    var faulted := k.(faults := Affected(k.faults, cmd));
    assert Told(faulted);
    hide Told, Affected, Perform;
    var e := FaultApplied(k.now, k.nextSeq, AsRecorded(cmd));
    ToldRecord(faulted, e);
    if cmd.Restart? && cmd.node in k.nodes {
      ToldPerform(Record(faulted, e), cmd.node, ops);
    }
  }

  // ------------------------------------------------------------------------- events and runs

  lemma {:induction false} ToldPop(k: Core, e: Event)
    requires Told(k) && Inv(k) && IsEarliest(k.queue, e)
    ensures Told(Popped(k, e))
    ensures forall f | f in Popped(k, e).queue :: f.seqNo != e.seqNo
  {
    hide AllCaused, FlightsSent, SetAs, Unspent, FlightOk, TraceOk;
  }

  lemma {:induction false} ToldFiring(k: Core, e: Event, ops: seq<Op>)
    requires Told(k) && Inv(k) && IsEarliest(k.queue, e) && e.kind.Timer?
    ensures Told(DispatchTimer(Popped(k, e), e.kind.node, e.kind.timerId, e.seqNo, ops))
  {
    ToldPop(k, e);
    var popped := Popped(k, e);
    assert SetAs(k.trace, e.seqNo, e.kind.node, e.kind.timerId, e.time) && Unspent(k.trace, e.seqNo);
    assert e.seqNo < k.nextSeq;
    hide Told, SetAs, Unspent, Inv, IsEarliest, Perform;
    if e.kind.node in k.faults.crashed {
      ToldEntry(popped, TimerDropped(e.time, e.seqNo, e.kind.node, e.kind.timerId));
    } else if e.kind.node in k.nodes {
      var fired := TimerFired(e.time, e.seqNo, e.kind.node, e.kind.timerId);
      ToldEntry(popped, fired);
      ToldPerform(Trace1(popped, fired), e.kind.node, ops);
    }
  }

  lemma {:induction false} ToldArrival(k: Core, id: nat, seqNo: nat, ops: seq<Op>)
    requires Told(k)
    ensures Told(DispatchArrival(k, id, seqNo, ops))
  {
    if id in k.inFlight {
      var Envelope(src, dst) := k.inFlight[id];
      var k' := k.(inFlight := k.inFlight - {id});
      assert SentAs(k.trace, id, src, dst);
      assert Told(k') && Told(k'.(strayed := k'.strayed + {id}));
      hide Told, SentAs, IsPartitioned, Perform;
      if dst in k.faults.crashed {
        ToldEntry(k', Dropped(k.now, seqNo, id, src, dst, NodeCrashed));
      } else if IsPartitioned(k.faults, src, dst) {
        ToldEntry(k', Dropped(k.now, seqNo, id, src, dst, PartitionedAtArrival));
      } else if dst in k.nodes {
        ToldEntry(k', Delivered(k.now, seqNo, id, src, dst));
        ToldPerform(Trace1(k', Delivered(k.now, seqNo, id, src, dst)), dst, ops);
      }
    }
  }

  lemma {:induction false} ToldTurn(k: Core, until: Time, ops: seq<Op>)
    requires Told(k) && Inv(k) && DistinctSeqs(k.queue)
    ensures Told(Turn(k, until, ops))
  {
    hide Told, Inv, DistinctSeqs, IsEarliest, DispatchTimer, DispatchArrival, ApplyFault;
    if k.queue != {} && Earliest(k.queue).time <= until {
      var e := Earliest(k.queue);
      ToldPop(k, e);
      match e.kind
      case Timer(node, timerId) => ToldFiring(k, e, ops);
      case Arrival(id) => ToldArrival(Popped(k, e), id, e.seqNo, ops);
      case FaultEvent(cmd) => ToldFault(Popped(k, e), cmd, ops);
    }
  }

  lemma {:induction false} ToldPlan(k: Core, at: Time, cmd: FaultCommand)
    requires Told(k)
    ensures Told(k.(nextSeq := k.nextSeq + 1, queue := k.queue + {Event(at, k.nextSeq, FaultEvent(cmd))}))
    ensures forall id :: Told(k.(nodes := k.nodes + {id}))
  {
    hide AllCaused, FlightsSent, SetAs, Unspent;
  }

  lemma {:induction false} ToldNext(k: Core, m: Move)
    requires Told(k) && Inv(k) && DistinctSeqs(k.queue)
    ensures Told(Next(k, m))
  {
    hide Told, Inv, DistinctSeqs, Send, ScheduleTimer, ApplyFault, Turn;
    match m
    case Inject(src, dst, decision) => ToldSend(k, src, dst, decision);
    case InjectTimer(node, after, timerId) => ToldTimer(k, node, after, timerId);
    case Inflict(cmd, ops) => ToldFault(k, cmd, ops);
    case Plan(at, cmd) => ToldPlan(k, at, cmd);
    case AddNode(id) => ToldPlan(k, k.now, Heal);
    case SetLeader(leader) => ToldRecord(k, LeaderChanged(k.now, k.nextSeq, leader));
    case Advanced(until, ops) => ToldTurn(k, until, ops);
  }

  lemma {:induction false} ToldAfter(moves: seq<Move>)
    ensures Told(After(moves))
  {
    assert Told(FRESH);
    hide Told, Inv, Next, DistinctSeqs;
    if moves == [] {
    } else {
      var before := moves[..|moves| - 1];
      ToldAfter(before);
      NextKeepsInv(After(before), moves[|moves| - 1]);
      ToldNext(After(before), moves[|moves| - 1]);
    }
  }

  /** A delivery or a drop names the ends its message was sent between. */
  lemma {:induction false} EndsAsSent(moves: seq<Move>, i: nat)
    requires i < |After(moves).trace| && (After(moves).trace[i].Delivered? || After(moves).trace[i].Dropped?)
    ensures var trace := After(moves).trace;
            exists j :: 0 <= j < i && ShowsSend(trace[j], trace[i].id, trace[i].src, trace[i].dst)
  {
    ToldAfter(moves);
    hide After;
    var trace := After(moves).trace;
    assert Caused(trace[..i], trace[i]);
    var j :| 0 <= j < |trace[..i]| && ShowsSend(trace[..i][j], trace[i].id, trace[i].src, trace[i].dst);
    assert trace[..i][j] == trace[j];
  }

  /** A timer fires, or is dropped, once, exactly at the time it was set for, and none that was
      set is still outstanding after its time. */
  lemma {:induction false} TimersKeepTime(moves: seq<Move>, i: nat)
    requires i < |After(moves).trace|
    ensures var k := After(moves);
            var trace, e := k.trace, k.trace[i];
            && (EndsTimer(e) ==>
                  && (exists j :: 0 <= j < i && ShowsTimer(trace[j], e.seqNo, e.node, e.timerId, e.time))
                  && (forall j | 0 <= j < i && EndsTimer(trace[j]) :: trace[j].seqNo != e.seqNo))
            && (e.TimerScheduled? ==>
                  e.fireAt <= k.now || Event(e.fireAt, e.seqNo, Timer(e.node, e.timerId)) in k.queue)
  {
    ToldAfter(moves);
    hide After;
    var trace, e := After(moves).trace, After(moves).trace[i];
    assert Caused(trace[..i], e);
    if EndsTimer(e) {
      var j :| 0 <= j < |trace[..i]| && ShowsTimer(trace[..i][j], e.seqNo, e.node, e.timerId, e.time);
      assert trace[..i][j] == trace[j];
      forall j | 0 <= j < i && EndsTimer(trace[j]) ensures trace[j].seqNo != e.seqNo {
        assert trace[..i][j] == trace[j];
      }
    }
  }
}
