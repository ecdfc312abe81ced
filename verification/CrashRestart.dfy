/** The slot again, with recorders that buffer their replies, persist in batches, and may
    crash and restart from disk at any moment. Every run of such a cluster is matched by a
    run of the slot in which recorders never crash and the network merely loses messages. */
module CrashRestart {
  import opened Recorders
  import opened Concrete
  import opened Safety
  import Isr
  import P = Proposer

  /** `sys.recorders` is what recorders hold in memory and `sys.net` what has left any
      process; `batch[r]` are the requests recorder `r` has handled since its last write. */
  datatype Cluster = Cluster(sys: Sys, disk: seq<Isr.Register>, batch: seq<seq<Msg>>)

  /** `Release` is a completed write followed by the release of the first `flushed` replies;
      `Crash` restarts from disk, the pending batch having been renamed into place or not. */
  datatype Move =
    | Take(m: Msg)
    | Release(r: nat, flushed: nat)
    | Crash(r: nat, renamed: bool)
    | Other(act: Action)

  function Boot(c: Config): Cluster {
    Cluster(Init(c), seq(c.n, _ => Isr.EMPTY), seq(c.n, _ => []))
  }

  predicate Requested(r: nat, batch: seq<Msg>) {
    forall k | 0 <= k < |batch| :: batch[k].Req? && batch[k].dst == r
  }

  ghost predicate Sound(c: Config, d: Cluster) {
    && Shaped(c, d.sys) && |d.disk| == |d.batch| == c.n
    && forall r | 0 <= r < c.n :: Requested(r, d.batch[r])
  }

  /** The register once a batch has been handled. */
  function HeldAfter(i: Isr.Register, r: nat, batch: seq<Msg>): Isr.Register
    requires Requested(r, batch)
  {
    if batch == [] then i
    else Handled(HeldAfter(i, r, batch[..|batch| - 1]), batch[|batch| - 1].req)
  }

  /** The replies that handling a batch produces. */
  function Replies(i: Isr.Register, r: nat, batch: seq<Msg>): set<Msg>
    requires Requested(r, batch)
  {
    if batch == [] then {}
    else
      var m := batch[|batch| - 1];
      Replies(i, r, batch[..|batch| - 1]) + {Resp(r, m.src, Reply(HeldAfter(i, r, batch), m.req))}
  }

  function Flushed(batch: seq<Msg>, k: nat): seq<Msg> {
    if k <= |batch| then batch[..k] else batch
  }

  function TakeOne(d: Cluster, m: Msg): Cluster
    requires m.Req? && m.dst < |d.sys.recorders| == |d.batch|
  {
    d.(sys := d.sys.(recorders := d.sys.recorders[m.dst := Handled(d.sys.recorders[m.dst], m.req)]),
       batch := d.batch[m.dst := d.batch[m.dst] + [m]])
  }

  function Next(c: Config, d: Cluster, move: Move): (d': Cluster)
    requires Sound(c, d)
    ensures Sound(c, d')
  {
    if d.sys.panicked then d
    else
      match move
      case Take(m) => if Enabled(c, d.sys, Handle(m)) then TakeOne(d, m) else d
      case Release(r, flushed) =>
        if r >= c.n then d
        else
          var out := Replies(d.disk[r], r, Flushed(d.batch[r], flushed));
          Cluster(d.sys.(net := d.sys.net + out), d.disk[r := d.sys.recorders[r]], d.batch[r := []])
      case Crash(r, renamed) =>
        if r >= c.n then d
        else
          var disk := if renamed then d.sys.recorders[r] else d.disk[r];
          Cluster(d.sys.(recorders := d.sys.recorders[r := disk]), d.disk[r := disk], d.batch[r := []])
      case Other(act) => if act.Handle? then d else d.(sys := Step(c, d.sys, act))
  }

  /** Where a sequence of moves leads. */
  function After(c: Config, moves: seq<Move>): (d: Cluster)
    ensures Sound(c, d)
  {
    if moves == [] then Boot(c)
    else Next(c, After(c, moves[..|moves| - 1]), moves[|moves| - 1])
  }

  // -------------------------------------------------------------------------- simulation

  ghost predicate Pending(net: set<Msg>, r: nat, disk: Isr.Register, batch: seq<Msg>, memory: Isr.Register) {
    && Requested(r, batch) && memory == HeldAfter(disk, r, batch)
    && forall k | 0 <= k < |batch| :: batch[k] in net
  }

  ghost predicate SameProposers(s: Sys, t: Sys) {
    s.proposers == t.proposers && s.hedge == t.hedge && s.kicks == t.kicks && s.panicked == t.panicked
  }

  /** The slot `s` without crashes stands where the cluster's disks stand, and has sent
      everything the cluster has released. */
  ghost predicate Matches(c: Config, d: Cluster, s: Sys) {
    && Sound(c, d) && Shaped(c, s) && SameProposers(d.sys, s)
    && s.recorders == d.disk && d.sys.net <= s.net
    && forall r | 0 <= r < c.n :: Pending(d.sys.net, r, d.disk[r], d.batch[r], d.sys.recorders[r])
  }

  function Handles(batch: seq<Msg>): seq<Action> {
    seq(|batch|, k requires 0 <= k < |batch| => Handle(batch[k]))
  }

  /** Handling a whole batch, one request after another. */
  lemma {:induction false} HandleBatch(c: Config, acts: seq<Action>, r: nat, batch: seq<Msg>)
    requires r < c.n && Requested(r, batch) && !Exec(c, acts).panicked
    requires forall k | 0 <= k < |batch| :: batch[k] in Exec(c, acts).net
    ensures var s, s' := Exec(c, acts), Exec(c, acts + Handles(batch));
            && SameProposers(s, s')
            && s'.recorders == s.recorders[r := HeldAfter(s.recorders[r], r, batch)]
            && s'.net == s.net + Replies(s.recorders[r], r, batch)
    decreases |batch|
  {
    hide Handled, Reply, Step;
    if batch == [] {
      assert acts + Handles(batch) == acts;
    } else {
      var n := |batch| - 1;
      var init, all := batch[..n], acts + Handles(batch);
      assert all[..|all| - 1] == acts + Handles(init) && all[|all| - 1] == Handle(batch[n]);
      forall k | 0 <= k < n ensures init[k] in Exec(c, acts).net {
        assert init[k] == batch[k];
      }
      HandleBatch(c, acts, r, init);
      assert batch[n] in Exec(c, acts).net;
      HandleOne(c, Exec(c, acts + Handles(init)), batch[n]);
    }
  }

  lemma {:induction false} HandleOne(c: Config, s: Sys, m: Msg)
    requires Shaped(c, s) && !s.panicked && m in s.net && m.Req? && m.dst < c.n
    ensures var i := Handled(s.recorders[m.dst], m.req);
            Step(c, s, Handle(m)) == s.(recorders := s.recorders[m.dst := i], net := s.net + {Resp(m.dst, m.src, Reply(i, m.req))})
  {
  }

  lemma {:induction false} FlushedReplies(i: Isr.Register, r: nat, batch: seq<Msg>, k: nat)
    requires Requested(r, batch)
    ensures Requested(r, Flushed(batch, k)) && Replies(i, r, Flushed(batch, k)) <= Replies(i, r, batch)
    decreases |batch|
  {
    if k < |batch| {
      var init := batch[..|batch| - 1];
      FlushedReplies(i, r, init, k);
      assert Flushed(init, k) == Flushed(batch, k);
    } else {
      assert Flushed(batch, k) == batch;
    }
  }

  /** A proposer's move does the same in both. */
  lemma {:induction false} OtherMatches(c: Config, d: Sys, s: Sys, act: Action)
    requires Shaped(c, d) && Shaped(c, s) && SameProposers(d, s) && d.net <= s.net
    requires !act.Handle? && Enabled(c, d, act)
    ensures var d', s' := Step(c, d, act), Step(c, s, act);
            && SameProposers(d', s') && d'.recorders == d.recorders && s'.recorders == s.recorders
            && d.net <= d'.net <= s'.net
  {
    assert Enabled(c, s, act);
    hide P.OnResponse, P.OnTimer, P.OnRetry;
  }

  lemma {:induction false} PendingStays(net: set<Msg>, net': set<Msg>, r: nat, disk: Isr.Register, batch: seq<Msg>, memory: Isr.Register)
    requires Pending(net, r, disk, batch, memory) && net <= net'
    ensures Pending(net', r, disk, batch, memory)
  {
  }

  lemma {:induction false} PendingTakes(net: set<Msg>, r: nat, disk: Isr.Register, batch: seq<Msg>, memory: Isr.Register, m: Msg)
    requires Pending(net, r, disk, batch, memory) && m in net && m.Req? && m.dst == r
    ensures Pending(net, r, disk, batch + [m], Handled(memory, m.req))
  {
    var more := batch + [m];
    assert more[..|more| - 1] == batch;
  }

  lemma {:induction false} AllPendingStay(c: Config, d: Cluster, d': Cluster, r: nat)
    requires Sound(c, d) && Sound(c, d') && d.sys.net <= d'.sys.net
    requires forall k | 0 <= k < c.n :: Pending(d.sys.net, k, d.disk[k], d.batch[k], d.sys.recorders[k])
    requires forall k | 0 <= k < c.n && k != r ::
               d'.disk[k] == d.disk[k] && d'.batch[k] == d.batch[k] && d'.sys.recorders[k] == d.sys.recorders[k]
    requires r < c.n ==> Pending(d'.sys.net, r, d'.disk[r], d'.batch[r], d'.sys.recorders[r])
    ensures forall k | 0 <= k < c.n :: Pending(d'.sys.net, k, d'.disk[k], d'.batch[k], d'.sys.recorders[k])
  {
    forall k | 0 <= k < c.n
      ensures Pending(d'.sys.net, k, d'.disk[k], d'.batch[k], d'.sys.recorders[k])
    {
      if k != r {
        PendingStays(d.sys.net, d'.sys.net, k, d.disk[k], d.batch[k], d.sys.recorders[k]);
      }
    }
  }

  lemma {:induction false} TakeMatches(c: Config, d: Cluster, s: Sys, m: Msg)
    requires Matches(c, d, s) && !d.sys.panicked
    ensures Matches(c, Next(c, d, Take(m)), s)
  {
    if Enabled(c, d.sys, Handle(m)) {
      var d' := Next(c, d, Take(m));
      PendingTakes(d.sys.net, m.dst, d.disk[m.dst], d.batch[m.dst], d.sys.recorders[m.dst], m);
      AllPendingStay(c, d, d', m.dst);
    }
  }

  /** Writing recorder `r`'s batch is what the slot without crashes does one request at a time;
      whatever is released or lost afterwards, it still matches. */
  lemma {:induction false} WriteMatches(c: Config, d: Cluster, acts: seq<Action>, r: nat, d': Cluster)
    requires Matches(c, d, Exec(c, acts)) && !d.sys.panicked && r < c.n && Sound(c, d')
    requires d'.disk == d.disk[r := d.sys.recorders[r]] && d'.batch == d.batch[r := []]
    requires d'.sys == d.sys.(net := d'.sys.net)
    requires d.sys.net <= d'.sys.net <= d.sys.net + Replies(d.disk[r], r, d.batch[r])
    ensures Matches(c, d', Exec(c, acts + Handles(d.batch[r])))
  {
    var s := Exec(c, acts);
    assert Pending(d.sys.net, r, d.disk[r], d.batch[r], d.sys.recorders[r]);
    HandleBatch(c, acts, r, d.batch[r]);
    AllPendingStay(c, d, d', r);
  }

  lemma {:induction false} MoveMatches(c: Config, d: Cluster, acts: seq<Action>, move: Move) returns (more: seq<Action>)
    requires Matches(c, d, Exec(c, acts))
    ensures Matches(c, Next(c, d, move), Exec(c, acts + more))
  {
    more := [];
    assert acts + [] == acts;
    if d.sys.panicked { return; }
    match move
    case Take(m) => TakeMatches(c, d, Exec(c, acts), m);
    case Release(r, flushed) =>
      if r < c.n {
        FlushedReplies(d.disk[r], r, d.batch[r], flushed);
        WriteMatches(c, d, acts, r, Next(c, d, move));
        more := Handles(d.batch[r]);
      }
    case Crash(r, renamed) =>
      if r < c.n {
        if renamed {
          WriteMatches(c, d, acts, r, Next(c, d, move));
          more := Handles(d.batch[r]);
        } else {
          AllPendingStay(c, d, Next(c, d, move), r);
        }
      }
    case Other(act) =>
      if !act.Handle? && Enabled(c, d.sys, act) {
        more := [act];
        assert (acts + more)[..|acts + more| - 1] == acts;
        OtherMatches(c, d.sys, Exec(c, acts), act);
        AllPendingStay(c, d, Next(c, d, move), c.n);
      }
  }

  /** Crash-restart refinement for the cluster: some schedule of the slot without crashes leads
      to the same proposers, holds in its recorders what the disks hold, and has sent every
      message the cluster has released. */
  lemma {:induction false} ClusterRefinesSlot(c: Config, moves: seq<Move>) returns (acts: seq<Action>)
    ensures Matches(c, After(c, moves), Exec(c, acts))
  {
    acts := [];
    if moves == [] {
      BootMatches(c);
    } else {
      var before := moves[..|moves| - 1];
      var sofar := ClusterRefinesSlot(c, before);
      var more := MoveMatches(c, After(c, before), sofar, moves[|moves| - 1]);
      acts := sofar + more;
    }
  }

  lemma {:induction false} BootMatches(c: Config)
    ensures Matches(c, Boot(c), Init(c))
  {
    forall r | 0 <= r < c.n
      ensures Pending({}, r, Isr.EMPTY, [], Isr.EMPTY)
    {
    }
  }

  /** Agreement and validity survive recorders that crash and restart, and no `expect` fails. */
  lemma {:induction false} CrashRestartIsSafe(c: Config, moves: seq<Move>)
    requires WellFormed(c) && Uncontested(c) && StartedOnce(After(c, moves).sys)
    ensures var s := After(c, moves).sys;
            && Agreement(s) && !s.panicked
            && forall a | 0 <= a < |s.proposers| && s.proposers[a].decided.Some? :: s.proposers[a].decided.value in Inputs(c)
  {
    var acts := ClusterRefinesSlot(c, moves);
    hide After, Exec, Pending;
    assert StartedOnce(Exec(c, acts));
    AgreementHolds(c, acts);
    NeverPanics(c, acts);
    Validity(c, acts);
    var s := After(c, moves).sys;
    forall a | 0 <= a < |s.proposers| && s.proposers[a].decided.Some?
      ensures s.proposers[a].decided.value in Inputs(c)
    {
      assert ProposerHolds(Exec(c, acts).proposers[a], s.proposers[a].decided.value);
    }
  }
}
