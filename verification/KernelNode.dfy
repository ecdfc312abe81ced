/** The kernel as the object its event loop updates in place, proved against the functions of
    module `Kernel`. What node callbacks ask for is given as scripts of operations. */
module KernelNode {
  import opened Proposals
  import opened Kernel

  /** Fault state that scenarios change and the kernel consults. */
  class Faults {
    var crashed: set<nat>
    var partition: Option<(set<nat>, set<nat>)>
    var slow: map<nat, nat>

    function State(): FaultState
      reads this
    {
      FaultState(crashed, partition, slow)
    }

    constructor ()
      ensures State() == NO_FAULTS
    {
      crashed, partition, slow := {}, None, map[];
    }

    method Apply(cmd: FaultCommand)
      modifies this
      ensures State() == Affected(old(State()), cmd)
    {
      match cmd
      case Crash(n) => crashed := crashed + {n};
      case Restart(n) => crashed := crashed - {n};
      case Partition(a, b) => partition := Some((a, b));
      case Heal => partition := None;
      case SlowNode(n, m) =>
        if m <= 1 {
          slow := slow - {n};
        } else {
          slow := slow[n := m];
        }
      case ClearSlow(n) => slow := slow - {n};
    }
  }

  /** The event queue; popping takes the earliest event. */
  class EventQueue {
    var events: set<Event>

    constructor ()
      ensures events == {}
    {
      events := {};
    }

    method Push(time: Time, seqNo: nat, kind: EventKind)
      modifies this
      ensures events == old(events) + {Event(time, seqNo, kind)}
    {
      events := events + {Event(time, seqNo, kind)};
    }

    method Pop() returns (e: Option<Event>)
      requires DistinctSeqs(events)
      modifies this
      ensures e.None? <==> old(events) == {}
      ensures e.Some? ==> IsEarliest(old(events), e.value) && e.value == Earliest(old(events)) && events == old(events) - {e.value}
      ensures e.None? ==> events == old(events)
    {
      if events == {} { return None; }
      e := Some(Earliest(events));
      events := events - {e.value};
    }

    method PeekTime() returns (t: Option<Time>)
      requires DistinctSeqs(events)
      ensures t == if events == {} then None else Some(Earliest(events).time)
    {
      t := if events == {} then None else Some(Earliest(events).time);
    }
  }

  class KernelObject {
    const faults: Faults
    const queue: EventQueue
    var now: Time
    var nextSeq: nat
    var nextId: nat
    var trace: Trace
    var inFlight: map<nat, Envelope>
    var nodes: set<nat>
    ghost var strayed: set<nat>

    ghost function State(): Core
      reads this, faults, queue
    {
      Core(now, nextSeq, nextId, trace, faults.State(), queue.events, inFlight, nodes, strayed)
    }

    constructor ()
      ensures fresh(faults) && fresh(queue) && State() == FRESH
    {
      faults := new Faults();
      queue := new EventQueue();
      now, nextSeq, nextId, trace, inFlight, nodes := 0, 0, 0, [], map[], {};
      strayed := {};
    }

    method BumpSeq() returns (s: nat)
      modifies this`nextSeq
      ensures s == old(nextSeq) && nextSeq == s + 1
    {
      s := nextSeq;
      nextSeq := nextSeq + 1;
    }

    method SendMessage(src: nat, dst: nat, decision: Decision)
      modifies this, queue
      ensures State() == Send(old(State()), src, dst, decision)
    {
      var id := nextId;
      nextId := nextId + 1;
      var sendSeq := BumpSeq();
      trace := trace + [Sent(now, sendSeq, id, src, dst)];
      if src in faults.crashed || dst in faults.crashed {
        var s := BumpSeq();
        trace := trace + [Dropped(now, s, id, src, dst, NodeCrashed)];
        return;
      }
      if IsPartitioned(faults.State(), src, dst) {
        var s := BumpSeq();
        trace := trace + [Dropped(now, s, id, src, dst, Partitioned)];
        return;
      }
      match decision
      case DeliverAfter(delay) =>
        var total := AtLeastOne(SaturatingMul(delay, SlowMultiplier(faults.State(), src, dst)));
        var s := BumpSeq();
        queue.Push(Advance(now, total), s, Arrival(id));
        inFlight := inFlight[id := Envelope(src, dst)];
      case DropIt =>
        var s := BumpSeq();
        trace := trace + [Dropped(now, s, id, src, dst, Scheduler)];
    }

    method AddTimer(node: nat, after: nat, timerId: nat)
      modifies this, queue
      ensures State() == ScheduleTimer(old(State()), node, after, timerId)
    {
      var fireAt := Advance(now, AtLeastOne(after));
      var s := BumpSeq();
      trace := trace + [TimerScheduled(now, s, node, timerId, fireAt)];
      queue.Push(fireAt, s, Timer(node, timerId));
    }

    method RunCallback(self: nat, ops: seq<Op>)
      modifies this, queue
      ensures State() == Perform(old(State()), self, ops)
    {
      for k := 0 to |ops|
        invariant State() == Perform(old(State()), self, ops[..k])
      {
        assert ops[..k + 1][..k] == ops[..k];
        match ops[k]
        case SendOp(dst, decision) => SendMessage(self, dst, decision);
        case TimerOp(after, timerId) => AddTimer(self, after, timerId);
      }
      assert ops[..|ops|] == ops;
    }

    method ApplyFaultCommand(cmd: FaultCommand, ops: seq<Op>)
      modifies this, queue, faults
      ensures State() == ApplyFault(old(State()), cmd, ops)
    {
      faults.Apply(cmd);
      var s := BumpSeq();
      trace := trace + [FaultApplied(now, s, AsRecorded(cmd))];
      if cmd.Restart? && cmd.node in nodes {
        RunCallback(cmd.node, ops);
      }
    }

    method DispatchTimerEvent(node: nat, timerId: nat, seqNo: nat, ops: seq<Op>)
      modifies this, queue
      ensures State() == DispatchTimer(old(State()), node, timerId, seqNo, ops)
    {
      if node in faults.crashed {
        trace := trace + [TimerDropped(now, seqNo, node, timerId)];
        return;
      }
      if node in nodes {
        trace := trace + [TimerFired(now, seqNo, node, timerId)];
        RunCallback(node, ops);
      }
    }

    method DispatchMessageArrival(id: nat, seqNo: nat, ops: seq<Op>)
      modifies this, queue
      ensures State() == DispatchArrival(old(State()), id, seqNo, ops)
    {
      if id !in inFlight { return; }
      var Envelope(src, dst) := inFlight[id];
      inFlight := inFlight - {id};
      if dst in faults.crashed {
        trace := trace + [Dropped(now, seqNo, id, src, dst, NodeCrashed)];
        return;
      }
      if IsPartitioned(faults.State(), src, dst) {
        trace := trace + [Dropped(now, seqNo, id, src, dst, PartitionedAtArrival)];
        return;
      }
      if dst in nodes {
        trace := trace + [Delivered(now, seqNo, id, src, dst)];
        RunCallback(dst, ops);
      } else {
        strayed := strayed + {id};
      }
    }

    /** One iteration of the event loop; false when nothing is due by `until`. */
    method TurnOnce(until: Time, ops: seq<Op>) returns (more: bool)
      requires DistinctSeqs(queue.events)
      modifies this, queue, faults
      ensures State() == Turn(old(State()), until, ops)
      ensures more <==> old(queue.events) != {} && Earliest(old(queue.events)).time <= until
    {
      var due := queue.PeekTime();
      if due.None? || due.value > until { return false; }
      var event := queue.Pop();
      now := event.value.time;
      match event.value.kind {
        case Timer(node, timerId) => DispatchTimerEvent(node, timerId, event.value.seqNo, ops);
        case Arrival(id) => DispatchMessageArrival(id, event.value.seqNo, ops);
        case FaultEvent(cmd) => ApplyFaultCommand(cmd, ops);
      }
      more := true;
    }

    /** The event loop, for as many events as there are scripts of callbacks. It ends early
        exactly when nothing is left that is due by `until`. */
    method RunUntil(until: Time, scripts: seq<seq<Op>>) returns (dispatched: nat)
      requires Inv(State())
      modifies this, queue, faults
      ensures Inv(State()) && dispatched <= |scripts|
      ensures State() == Turns(old(State()), until, scripts[..dispatched])
      ensures dispatched < |scripts| ==> queue.events == {} || (DistinctSeqs(queue.events) && Earliest(queue.events).time > until)
      ensures old(now) <= now
    {
      hide Inv, Turn;
      dispatched := 0;
      while dispatched < |scripts|
        invariant dispatched <= |scripts| && Inv(State()) && old(now) <= now
        invariant State() == Turns(old(State()), until, scripts[..dispatched])
      {
        ghost var k := State();
        TurnKeepsInv(k, until, scripts[dispatched]);
        assert scripts[..dispatched + 1][..dispatched] == scripts[..dispatched];
        var more := TurnOnce(until, scripts[dispatched]);
        if !more {
          QuietTurn(k, until, scripts[dispatched]);
          return;
        }
        dispatched := dispatched + 1;
      }
    }
  }

  /** Several turns of the event loop. */
  ghost function Turns(k: Core, until: Time, scripts: seq<seq<Op>>): (k': Core)
    requires Inv(k)
    ensures Inv(k')
  {
    if scripts == [] then k
    else
      var before := Turns(k, until, scripts[..|scripts| - 1]);
      TurnKeepsInv(before, until, scripts[|scripts| - 1]);
      Turn(before, until, scripts[|scripts| - 1])
  }

  lemma {:induction false} QuietTurn(k: Core, until: Time, ops: seq<Op>)
    requires DistinctSeqs(k.queue) && (k.queue == {} || Earliest(k.queue).time > until)
    ensures Turn(k, until, ops) == k
  {
  }
}
