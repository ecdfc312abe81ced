/** The abstract protocol: three broadcasts a round, on top of nothing but the broadcast
    contract, under crash-stop failures. */
module Algorithm1 {
  import opened Proposals
  import opened Tcast

  datatype Replica = Replica(v: int, decided: Option<int>, rounds: nat)

  /** Everything the three broadcasts of one round hand out. */
  datatype Round = Round(
    p: map<nat, Proposal>,
    gathered: map<nat, ProposalSet>,
    existent: map<nat, ProposalSet>,
    propagated: map<nat, ProposalSet>,
    common: map<nat, ProposalSet>,
    universal: map<nat, ProposalSet>)

  function Singles(p: map<nat, Proposal>): (inputs: map<nat, ProposalSet>)
    ensures inputs.Keys == p.Keys
  {
    map i | i in p :: {p[i]}
  }

  /** The live replicas proposed what they hold, and each broadcast kept its contract. */
  ghost predicate RoundOk(n: nat, live: set<nat>, replicas: map<nat, Replica>, rd: Round) {
    && live <= replicas.Keys && rd.p.Keys == live
    && rd.gathered.Keys == rd.existent.Keys == rd.propagated.Keys == rd.common.Keys == rd.universal.Keys == live
    && (forall i | i in live :: rd.p[i].value == replicas[i].v && rd.p[i].origin == i)
    && (exists b :: Contract(n, live, Singles(rd.p), rd.gathered, b))
    && Contract(n, live, rd.gathered, rd.existent, rd.propagated)
    && Contract(n, live, rd.propagated, rd.common, rd.universal)
  }

  /** A replica after a round in which it saw existent set `e`, common set `c` and universal
      set `u`. */
  function Updated(st: Replica, e: ProposalSet, c: ProposalSet, u: ProposalSet): Replica
    requires c != {}
  {
    var v := Best(c).value.value;
    Replica(v, if st.decided.None? && Best(e) == Best(u) then Some(v) else st.decided, st.rounds + 1)
  }

  lemma {:induction false} BestIs(s: ProposalSet, m: Proposal)
    requires IsBest(s, m)
    ensures Best(s) == Some(m)
  {
    var b := Best(s).value;
    assert Le(b, m) && Le(m, b);
  }

  /** After a round a replica holds the value of the greatest common proposal, and has delivered
      that value too if it had delivered none and the greatest existent proposal is the greatest
      universal one. */
  lemma {:induction false} UpdatedMeaning(st: Replica, e: ProposalSet, c: ProposalSet, u: ProposalSet, pe: Proposal, pc: Proposal, pu: Proposal)
    requires IsBest(e, pe) && IsBest(c, pc) && IsBest(u, pu)
    ensures var st' := Updated(st, e, c, u);
            && st'.v == pc.value && st'.rounds == st.rounds + 1
            && (st.decided.Some? ==> st'.decided == st.decided)
            && (st.decided.None? && pe == pu ==> st'.decided == Some(pc.value))
            && (st.decided.None? && pe != pu ==> st'.decided == None)
  {
    hide Le;
    BestIs(e, pe);
    BestIs(c, pc);
    BestIs(u, pu);
  }

  // ------------------------------------------------------------------------ one round

  /** Values outside `w` never enter a broadcast whose inputs all carry values in `w`. */
  ghost predicate Within(live: set<nat>, sets: map<nat, ProposalSet>, w: iset<int>) {
    live <= sets.Keys && forall i, p | i in live && p in sets[i] :: p.value in w
  }

  lemma {:induction false} BroadcastKeepsValues(
    n: nat, live: set<nat>, inputs: map<nat, ProposalSet>, r: map<nat, ProposalSet>, b: map<nat, ProposalSet>, w: iset<int>)
    requires live <= inputs.Keys && Contract(n, live, inputs, r, b) && Within(live, inputs, w)
    ensures Within(live, r, w) && Within(live, b, w)
  {
    forall i, p | i in live && p in r[i]
      ensures p.value in w
    {
      assert Genuine(n, live, inputs, r[i]);
      var j :| j in live && p in inputs[j];
    }
    forall i, p | i in live && p in b[i]
      ensures p.value in w
    {
      assert Universal(live, inputs, r, b[i]);
    }
  }

  lemma {:induction false} RoundContracts(n: nat, live: set<nat>, replicas: map<nat, Replica>, rd: Round)
    returns (b: map<nat, ProposalSet>)
    requires RoundOk(n, live, replicas, rd)
    ensures rd.p.Keys == rd.gathered.Keys == rd.propagated.Keys == rd.universal.Keys == live
    ensures rd.existent.Keys == rd.common.Keys == live
    ensures Contract(n, live, Singles(rd.p), rd.gathered, b)
    ensures Contract(n, live, rd.gathered, rd.existent, rd.propagated)
    ensures Contract(n, live, rd.propagated, rd.common, rd.universal)
  {
    hide Contract, Le;
    b :| Contract(n, live, Singles(rd.p), rd.gathered, b);
  }

  lemma {:induction false} ProposedWithin(n: nat, live: set<nat>, replicas: map<nat, Replica>, rd: Round, w: iset<int>)
    requires RoundOk(n, live, replicas, rd) && forall i | i in live :: replicas[i].v in w
    ensures Within(live, Singles(rd.p), w)
  {
    hide Contract, Le;
  }

  lemma {:induction false} RoundKeepsValues(n: nat, live: set<nat>, replicas: map<nat, Replica>, rd: Round, w: iset<int>)
    requires RoundOk(n, live, replicas, rd) && forall i | i in live :: replicas[i].v in w
    ensures Within(live, rd.common, w)
  {
    ProposedWithin(n, live, replicas, rd, w);
    var b := RoundContracts(n, live, replicas, rd);
    hide RoundOk, Contract, Within, Singles, Le;
    BroadcastKeepsValues(n, live, Singles(rd.p), rd.gathered, b, w);
    BroadcastKeepsValues(n, live, rd.gathered, rd.existent, rd.propagated, w);
    BroadcastKeepsValues(n, live, rd.propagated, rd.common, rd.universal, w);
  }

  ghost predicate Inhabited(live: set<nat>, sets: map<nat, ProposalSet>) {
    live <= sets.Keys && forall i | i in live :: sets[i] != {}
  }

  lemma {:induction false} GenuineNotEmpty(n: nat, live: set<nat>, inputs: map<nat, ProposalSet>, r: ProposalSet)
    requires Inhabited(live, inputs) && Genuine(n, live, inputs, r)
    ensures r != {}
  {
    hide Le;
    var s :| s <= live && 2 * |s| > n && HoldsAll(inputs, s, r);
    assert s != {};
    var j :| j in s;
    assert inputs[j] != {} && inputs[j] <= r;
  }

  lemma {:induction false} UniversalNotEmpty(live: set<nat>, inputs: map<nat, ProposalSet>, r: map<nat, ProposalSet>, b: ProposalSet)
    requires Inhabited(live, inputs) && live <= r.Keys && Universal(live, inputs, r, b)
    ensures b != {}
  {
  }

  lemma {:induction false} BroadcastNeverEmpty(
    n: nat, live: set<nat>, inputs: map<nat, ProposalSet>, r: map<nat, ProposalSet>, b: map<nat, ProposalSet>)
    requires live <= inputs.Keys && Contract(n, live, inputs, r, b) && Inhabited(live, inputs)
    ensures Inhabited(live, r) && Inhabited(live, b)
  {
    hide Genuine, Universal, Le;
    forall i | i in live ensures r[i] != {} && b[i] != {} {
      assert Genuine(n, live, inputs, r[i]) && Universal(live, inputs, r, b[i]);
      hide Contract, Inhabited, Le;
      GenuineNotEmpty(n, live, inputs, r[i]);
      UniversalNotEmpty(live, inputs, r, b[i]);
    }
  }

  /** What one broadcast calls its `b`s, the next one's receivers and this one's all hold. */
  lemma {:induction false} CommonWithinExistent(
    n: nat, live: set<nat>, inputs: map<nat, ProposalSet>, e: map<nat, ProposalSet>, p: map<nat, ProposalSet>,
    c: map<nat, ProposalSet>, u: map<nat, ProposalSet>, j: nat, k: nat)
    requires live <= inputs.Keys && Contract(n, live, inputs, e, p) && Contract(n, live, p, c, u)
    requires j in live && k in live
    ensures c[j] <= e[k]
  {
    assert Genuine(n, live, p, c[j]);
    forall q | q in c[j]
      ensures q in e[k]
    {
      var i :| i in live && q in p[i];
      assert Universal(live, inputs, e, p[i]);
    }
  }

  /** The crux: every universal set lies inside every common set, which lies inside every
      existent set, and none is empty. */
  lemma {:induction false} Crux(n: nat, live: set<nat>, replicas: map<nat, Replica>, rd: Round, i: nat, j: nat, k: nat)
    requires RoundOk(n, live, replicas, rd) && i in live && j in live && k in live
    ensures rd.universal[i] != {} && rd.universal[i] <= rd.common[j] <= rd.existent[k]
  {
    var b := RoundContracts(n, live, replicas, rd);
    RoundInhabited(n, live, replicas, rd);
    assert Universal(live, rd.propagated, rd.common, rd.universal[i]);
    CommonWithinExistent(n, live, rd.gathered, rd.existent, rd.propagated, rd.common, rd.universal, j, k);
  }

  lemma {:induction false} RoundInhabited(n: nat, live: set<nat>, replicas: map<nat, Replica>, rd: Round)
    requires RoundOk(n, live, replicas, rd)
    ensures Inhabited(live, rd.universal)
  {
    var b := RoundContracts(n, live, replicas, rd);
    assert Inhabited(live, Singles(rd.p));
    hide RoundOk, Contract, Inhabited, Singles, Le;
    BroadcastNeverEmpty(n, live, Singles(rd.p), rd.gathered, b);
    BroadcastNeverEmpty(n, live, rd.gathered, rd.existent, rd.propagated);
    BroadcastNeverEmpty(n, live, rd.propagated, rd.common, rd.universal);
  }

  /** A replica that sees consensus sees what every live replica's common set says. */
  lemma {:induction false} DetectionIsShared(n: nat, live: set<nat>, replicas: map<nat, Replica>, rd: Round, i: nat, j: nat)
    requires RoundOk(n, live, replicas, rd) && i in live && j in live
    requires Best(rd.existent[i]) == Best(rd.universal[i])
    ensures Best(rd.common[j]) == Best(rd.existent[i])
  {
    Crux(n, live, replicas, rd, i, j, i);
    hide RoundOk, Le;
    BestSqueeze(rd.universal[i], rd.common[j], rd.existent[i]);
  }

  // -------------------------------------------------------------------------- whole runs

  datatype State = State(live: set<nat>, replicas: map<nat, Replica>)

  datatype Event = Crash(id: nat) | Completed(rd: Round)

  /** One replica after a round; a crashed one stays as it was. */
  ghost predicate Moved(live: set<nat>, rd: Round, i: nat, before: Replica, after: Replica)
    requires rd.existent.Keys == rd.common.Keys == rd.universal.Keys == live
  {
    if i in live
    then rd.common[i] != {} && after == Updated(before, rd.existent[i], rd.common[i], rd.universal[i])
    else after == before
  }

  ghost predicate Advanced(live: set<nat>, before: map<nat, Replica>, rd: Round, after: map<nat, Replica>)
    requires rd.existent.Keys == rd.common.Keys == rd.universal.Keys == live
  {
    after.Keys == before.Keys && forall i | i in before :: Moved(live, rd, i, before[i], after[i])
  }

  ghost predicate Next(n: nat, s: State, e: Event, s': State) {
    match e
    case Crash(id) => s' == s.(live := s.live - {id})
    case Completed(rd) =>
      RoundOk(n, s.live, s.replicas, rd) && s'.live == s.live && Advanced(s.live, s.replicas, rd, s'.replicas)
  }

  ghost predicate Initial(n: nat, initial: map<nat, int>, s: State) {
    && |initial| == n && s.live == initial.Keys == s.replicas.Keys
    && forall i | i in initial :: s.replicas[i] == Replica(initial[i], None, 0)
  }

  ghost predicate Run(n: nat, initial: map<nat, int>, states: seq<State>, events: seq<Event>) {
    && |states| == |events| + 1 && Initial(n, initial, states[0])
    && forall k | 0 <= k < |events| :: Next(n, states[k], events[k], states[k + 1])
  }

  ghost predicate Holds(st: Replica, w: int) {
    st.v == w
  }

  ghost predicate DeliversOnly(st: Replica, w: int) {
    st.decided.Some? ==> st.decided.value == w
  }

  /** Every live replica holds `w`, and no replica has delivered anything else. */
  ghost predicate Committed(s: State, w: int) {
    && (forall i | i in s.live :: i in s.replicas && Holds(s.replicas[i], w))
    && (forall i | i in s.replicas :: DeliversOnly(s.replicas[i], w))
  }

  ghost predicate AnyDecided(s: State) {
    exists i :: i in s.replicas && s.replicas[i].decided.Some?
  }

  ghost predicate SafeState(s: State) {
    s.live <= s.replicas.Keys && (AnyDecided(s) ==> exists w :: Committed(s, w))
  }

  /** What a completed round did to one replica. */
  lemma {:induction false} RoundMoves(n: nat, s: State, rd: Round, s': State, i: nat)
    requires Next(n, s, Completed(rd), s') && i in s.replicas
    ensures s.live <= s.replicas.Keys && s'.live == s.live && s'.replicas.Keys == s.replicas.Keys
    ensures RoundOk(n, s.live, s.replicas, rd) && Moved(s.live, rd, i, s.replicas[i], s'.replicas[i])
  {
    hide Contract, Moved, Le;
  }

  /** A live replica's new value is that of some proposal in its common set. */
  lemma {:induction false} NewValueIsCommon(n: nat, s: State, rd: Round, s': State, i: nat, w: iset<int>)
    requires Next(n, s, Completed(rd), s') && s.live <= s.replicas.Keys && i in s.live
    requires forall j | j in s.live :: s.replicas[j].v in w
    ensures i in s'.replicas && s'.replicas[i].v in w
    ensures s'.replicas[i].decided == s.replicas[i].decided || s'.replicas[i].decided == Some(s'.replicas[i].v)
  {
    RoundMoves(n, s, rd, s', i);
    RoundKeepsValues(n, s.live, s.replicas, rd, w);
    hide RoundOk, Next, Le;
    assert Best(rd.common[i]).value in rd.common[i];
  }

  lemma {:induction false} CrashedStays(n: nat, s: State, rd: Round, s': State, i: nat)
    requires Next(n, s, Completed(rd), s') && i in s.replicas && i !in s.live
    ensures i in s'.replicas && s'.replicas[i] == s.replicas[i]
  {
    RoundMoves(n, s, rd, s', i);
  }

  lemma {:induction false} LiveKeeps(n: nat, s: State, rd: Round, s': State, w: int, i: nat)
    requires Next(n, s, Completed(rd), s') && s.live <= s.replicas.Keys && Committed(s, w) && i in s.live
    ensures i in s'.replicas && Holds(s'.replicas[i], w) && DeliversOnly(s'.replicas[i], w)
  {
    hide Next, RoundOk, Contract, Le;
    forall j | j in s.live ensures s.replicas[j].v == w {
      assert Holds(s.replicas[j], w);
    }
    assert DeliversOnly(s.replicas[i], w);
    hide Committed;
    NewValueIsCommon(n, s, rd, s', i, iset{w});
  }

  lemma {:induction false} RoundShape(n: nat, s: State, rd: Round, s': State)
    requires Next(n, s, Completed(rd), s')
    ensures s.live <= s.replicas.Keys && s'.live == s.live && s'.replicas.Keys == s.replicas.Keys
    ensures RoundOk(n, s.live, s.replicas, rd)
  {
    hide Contract, Le;
  }

  lemma {:induction false} RoundKeepsCommitted(n: nat, s: State, rd: Round, s': State, w: int)
    requires Next(n, s, Completed(rd), s') && Committed(s, w)
    ensures Committed(s', w)
  {
    hide Next, RoundOk, Contract, Holds, DeliversOnly, Le;
    RoundShape(n, s, rd, s');
    forall i | i in s.replicas
      ensures i in s.live ==> Holds(s'.replicas[i], w)
      ensures DeliversOnly(s'.replicas[i], w)
    {
      if i in s.live {
        LiveKeeps(n, s, rd, s', w, i);
      } else {
        CrashedStays(n, s, rd, s', i);
      }
    }
  }

  lemma {:induction false} LiveCommits(n: nat, s: State, rd: Round, s': State, i: nat, j: nat, w: int)
    requires Next(n, s, Completed(rd), s') && i in s.live && j in s.live
    requires j in s.replicas && s.replicas[j].decided.None?
    requires RoundOk(n, s.live, s.replicas, rd)
    requires Best(rd.existent[i]) == Best(rd.universal[i]) == Best(rd.common[i])
    requires Best(rd.common[i]).Some? && w == Best(rd.common[i]).value.value
    ensures j in s'.replicas && Holds(s'.replicas[j], w) && DeliversOnly(s'.replicas[j], w)
  {
    hide Next, RoundOk, Contract, Le;
    RoundMoves(n, s, rd, s', j);
    DetectionIsShared(n, s.live, s.replicas, rd, i, j);
  }

  lemma {:induction false} RoundSettles(n: nat, s: State, rd: Round, s': State, i: nat)
    requires Next(n, s, Completed(rd), s') && !AnyDecided(s)
    requires i in s'.replicas && s'.replicas[i].decided.Some?
    ensures Committed(s', s'.replicas[i].decided.value)
  {
    hide Next, RoundOk, Contract, Holds, Le;
    var w := s'.replicas[i].decided.value;
    RoundShape(n, s, rd, s');
    DecidedHere(n, s, rd, s', i);
    forall j | j in s.replicas
      ensures j in s.live ==> Holds(s'.replicas[j], w)
      ensures DeliversOnly(s'.replicas[j], w)
    {
      assert s.replicas[j].decided.None?;
      if j in s.live {
        LiveCommits(n, s, rd, s', i, j, w);
      } else {
        CrashedStays(n, s, rd, s', j);
      }
    }
  }

  /** Before anyone has decided, a decision means its replica saw consensus this round. */
  lemma {:induction false} DecidedHere(n: nat, s: State, rd: Round, s': State, i: nat)
    requires Next(n, s, Completed(rd), s') && !AnyDecided(s)
    requires i in s'.replicas && s'.replicas[i].decided.Some?
    ensures i in s.replicas && i in s.live && RoundOk(n, s.live, s.replicas, rd)
    ensures s'.replicas.Keys == s.replicas.Keys
    ensures Best(rd.existent[i]) == Best(rd.universal[i]) == Best(rd.common[i])
    ensures Best(rd.common[i]).Some? && s'.replicas[i].decided.value == Best(rd.common[i]).value.value
  {
    assert s'.replicas.Keys == s.replicas.Keys;
    RoundMoves(n, s, rd, s', i);
    hide Next, RoundOk, Le;
    assert s.replicas[i].decided.None?;
    assert i in s.live;
    DetectionIsShared(n, s.live, s.replicas, rd, i, i);
  }

  /** Every event keeps the safety invariant. */
  lemma {:induction false} NextKeepsSafe(n: nat, s: State, e: Event, s': State)
    requires Next(n, s, e, s') && SafeState(s)
    ensures SafeState(s')
  {
    if AnyDecided(s) {
      var w :| Committed(s, w);
      if e.Completed? {
        RoundKeepsCommitted(n, s, e.rd, s', w);
      }
      assert Committed(s', w);
    } else if i :| i in s'.replicas && s'.replicas[i].decided.Some? && e.Completed? {
      RoundSettles(n, s, e.rd, s', i);
    }
  }

  lemma {:induction false} RunIsSafe(n: nat, initial: map<nat, int>, states: seq<State>, events: seq<Event>, k: nat)
    requires Run(n, initial, states, events) && k < |states|
    ensures SafeState(states[k])
  {
    if k == 0 {
    } else {
      RunIsSafe(n, initial, states, events, k - 1);
      NextKeepsSafe(n, states[k - 1], events[k - 1], states[k]);
    }
  }

  /** Agreement: over any number of rounds and any crashes, no two replicas, live or crashed,
      deliver different values. */
  lemma {:induction false} AbstractAgreement(
    n: nat, initial: map<nat, int>, states: seq<State>, events: seq<Event>, k: nat, i: nat, j: nat)
    requires Run(n, initial, states, events) && k < |states|
    requires var replicas := states[k].replicas;
             i in replicas && j in replicas && replicas[i].decided.Some? && replicas[j].decided.Some?
    ensures states[k].replicas[i].decided == states[k].replicas[j].decided
  {
    RunIsSafe(n, initial, states, events, k);
    assert AnyDecided(states[k]);
  }

  /** Integrity: a delivered value stays. */
  lemma {:induction false} AbstractIntegrity(
    n: nat, initial: map<nat, int>, states: seq<State>, events: seq<Event>, k: nat, l: nat, i: nat)
    requires Run(n, initial, states, events) && k <= l < |states|
    requires i in states[k].replicas && states[k].replicas[i].decided.Some?
    ensures i in states[l].replicas && states[l].replicas[i].decided == states[k].replicas[i].decided
    decreases l
  {
    if k == l {
    } else {
      AbstractIntegrity(n, initial, states, events, k, l - 1, i);
      assert Next(n, states[l - 1], events[l - 1], states[l]);
    }
  }

  ghost predicate Grounded(initial: map<nat, int>, s: State) {
    s.live <= s.replicas.Keys
    && forall i | i in s.replicas ::
         s.replicas[i].v in initial.Values
         && (s.replicas[i].decided.Some? ==> s.replicas[i].decided.value in initial.Values)
  }

  lemma {:induction false} RoundKeepsGrounded(n: nat, initial: map<nat, int>, s: State, rd: Round, s': State)
    requires Next(n, s, Completed(rd), s') && Grounded(initial, s)
    ensures Grounded(initial, s')
  {
    forall i | i in s'.replicas
      ensures s'.replicas[i].v in initial.Values
      ensures s'.replicas[i].decided.Some? ==> s'.replicas[i].decided.value in initial.Values
    {
      assert i in s.replicas;
      RoundMoves(n, s, rd, s', i);
      hide Next, RoundOk, Le;
      if i in s.live {
        NewValueIsCommon(n, s, rd, s', i, iset v | v in initial.Values);
      }
    }
    assert s'.live <= s'.replicas.Keys;
  }

  /** Validity: every value held or delivered is some replica's initial value. */
  lemma {:induction false} AbstractValidity(n: nat, initial: map<nat, int>, states: seq<State>, events: seq<Event>, k: nat)
    requires Run(n, initial, states, events) && k < |states|
    ensures Grounded(initial, states[k])
  {
    hide RoundOk, Advanced;
    if k == 0 {
    } else {
      AbstractValidity(n, initial, states, events, k - 1);
      var e := events[k - 1];
      assert Next(n, states[k - 1], e, states[k]);
      if e.Completed? {
        RoundKeepsGrounded(n, initial, states[k - 1], e.rd, states[k]);
      }
    }
  }

  // ------------------------------------------------- the realisation with one shared `b`

  /** When the second broadcast hands everyone the same set, the third can only return it. */
  lemma {:induction false} SharedInputReturns(
    n: nat, live: set<nat>, inputs: map<nat, ProposalSet>, b: ProposalSet, r: map<nat, ProposalSet>, u: map<nat, ProposalSet>, i: nat)
    requires live <= inputs.Keys && Contract(n, live, inputs, r, u) && i in live
    requires forall k | k in live :: inputs[k] == b
    ensures r[i] == b && u[i] == b
  {
    assert Genuine(n, live, inputs, r[i]) && Universal(live, inputs, r, u[i]);
    hide Contract, Universal, Le;
    HoldsThat(n, live, inputs, r[i], b);
    assert u[i] == b by { UniversalIs(live, inputs, r, u[i], b); }
  }

  lemma {:induction false} UniversalIs(live: set<nat>, inputs: map<nat, ProposalSet>, r: map<nat, ProposalSet>, u: ProposalSet, b: ProposalSet)
    requires live <= inputs.Keys && live <= r.Keys && Universal(live, inputs, r, u) && forall k | k in live :: inputs[k] == b
    ensures u == b
  {
  }

  lemma {:induction false} HoldsThat(n: nat, live: set<nat>, inputs: map<nat, ProposalSet>, r: ProposalSet, b: ProposalSet)
    requires live <= inputs.Keys && Genuine(n, live, inputs, r) && forall k | k in live :: inputs[k] == b
    ensures r == b
  {
    hide Le;
    assert HoldsMajority(n, live, inputs, r);
    var quorum :| quorum <= live && 2 * |quorum| > n && HoldsAll(inputs, quorum, r);
    assert quorum != {};
    var k :| k in quorum;
    assert inputs[k] == b;
  }

  lemma {:induction false} RoundReturnsShared(n: nat, s: State, rd: Round, s': State, b: ProposalSet, i: nat)
    requires Next(n, s, Completed(rd), s') && i in s.live
    requires forall k | k in s.live :: k in rd.propagated && rd.propagated[k] == b
    ensures i in s'.replicas && b != {} && s'.replicas[i].v == Best(b).value.value
  {
    hide Next, RoundOk, Contract, Le;
    RoundShape(n, s, rd, s');
    RoundMoves(n, s, rd, s', i);
    var _ := RoundContracts(n, s.live, s.replicas, rd);
    SharedInputReturns(n, s.live, rd.propagated, b, rd.common, rd.universal, i);
  }

  /** So, in the realisation, one completed round leaves all live replicas with one value,
      decided or not. */
  lemma {:induction false} RoundEqualises(n: nat, s: State, rd: Round, s': State, b: ProposalSet, i: nat, j: nat)
    requires Next(n, s, Completed(rd), s') && i in s.live && j in s.live
    requires forall k | k in s.live :: k in rd.propagated && rd.propagated[k] == b
    ensures i in s'.replicas && j in s'.replicas && s'.replicas[i].v == s'.replicas[j].v
  {
    RoundReturnsShared(n, s, rd, s', b, i);
    RoundReturnsShared(n, s, rd, s', b, j);
  }
}
