/** The lock-step driver of the abstract protocol: the object that runs rounds over the
    broadcast and updates each replica in place, tied to the step relation of module
    `Algorithm1`. */
module ClusterDriver {
  import opened Proposals
  import opened Quorums
  import opened Tcast
  import opened Algorithm1

  /** The three broadcasts of one round, each over a network of its own. */
  datatype Networks = Networks(gather: nat -> set<Pair>, spread: nat -> set<Pair>, common: nat -> set<Pair>)

  ghost predicate Fair(live: set<nat>, nets: Networks) {
    && EventuallyDelivers(live, nets.gather)
    && EventuallyDelivers(live, nets.spread)
    && EventuallyDelivers(live, nets.common)
  }

  /** Each live replica proposes what it holds, with the priority drawn for it. */
  ghost predicate ProposesAsDrawn(live: set<nat>, replicas: map<nat, Replica>, draw: nat -> nat, p: map<nat, Proposal>) {
    live <= p.Keys && live <= replicas.Keys && forall i | i in live :: p[i] == Proposal(replicas[i].v, draw(i), i)
  }

  function Proposed(live: set<nat>, replicas: map<nat, Replica>, draw: nat -> nat): (p: map<nat, Proposal>)
    requires live <= replicas.Keys
    ensures p.Keys == live && ProposesAsDrawn(live, replicas, draw, p)
  {
    map i | i in live :: Proposal(replicas[i].v, draw(i), i)
  }

  ghost predicate NothingLost(live: set<nat>, nets: Networks) {
    Lossless(live, nets.gather) && Lossless(live, nets.spread) && Lossless(live, nets.common)
  }

  /** Some proposal beats all others; every live replica now holds its value, and those that
      had delivered nothing have delivered it. */
  ghost predicate WinnerTakesAll(live: set<nat>, p: map<nat, Proposal>, before: map<nat, Replica>, after: map<nat, Replica>) {
    && live <= p.Keys && live <= before.Keys && live <= after.Keys
    && exists w {:trigger p[w]} ::
         && w in live && (forall j | j in live :: Le(p[j], p[w]))
         && forall i | i in live ::
              && after[i].v == p[w].value
              && after[i].decided == if before[i].decided.None? then Some(p[w].value) else before[i].decided
  }

  /** Every set handed out by the second broadcast of `rd` is the same one. */
  ghost predicate SharedB(live: set<nat>, rd: Round) {
    exists b :: rd.propagated == Everywhere(live, b)
  }

  class Cluster {
    const n: nat
    const mail: Mailboxes
    var live: set<nat>
    var replicas: map<nat, Replica>

    ghost predicate Valid()
      reads this, mail
    {
      live <= replicas.Keys == mail.received.Keys && |replicas.Keys| == n
    }

    ghost function Snapshot(): State
      reads this
    {
      State(live, replicas)
    }

    constructor (initial: map<nat, int>)
      ensures Valid() && fresh(mail) && n == |initial| && Initial(n, initial, Snapshot())
    {
      n := |initial.Keys|;
      mail := new Mailboxes(initial.Keys);
      live := initial.Keys;
      replicas := map i | i in initial :: Replica(initial[i], None, 0);
      new;
      assert replicas.Keys == initial.Keys;
    }

    method CrashOne(id: nat)
      requires Valid()
      modifies this`live
      ensures Valid() && Next(n, old(Snapshot()), Crash(id), Snapshot())
    {
      live := live - {id};
    }

    predicate AllLiveDecided()
      requires live <= replicas.Keys
      reads this
    {
      live != {} && forall i | i in live :: replicas[i].decided.Some?
    }

    /** The three broadcasts of a round: the proposals, what was gathered, and the set that the
        second broadcast made common, the same for everyone. */
    method Exchange(p: map<nat, Proposal>, nets: Networks)
      returns (ok: bool, e: map<nat, ProposalSet>, c: map<nat, ProposalSet>, u: ProposalSet, ghost rd: Round)
      requires Valid() && p.Keys == live
      requires forall i | i in live :: p[i].value == replicas[i].v && p[i].origin == i
      modifies mail
      ensures Valid() && rd.p == p
      ensures ok ==> RoundOk(n, live, replicas, rd) && SharedB(live, rd)
      ensures ok ==> rd.existent == e && rd.common == c && rd.universal == Everywhere(live, u)
      ensures 2 * |live| > n && Fair(live, nets) ==> ok
      ensures 2 * |live| > n && NothingLost(live, nets) ==> ok && AllHeard(live, rd)
    {
      hide *;
      Unfold(nets);
      SubsetCardinality(live, replicas.Keys);
      ok, e, c, u := false, map[], map[], {};
      rd := Round(p, map[], map[], map[], map[], map[]);
      var first, batches1 := Broadcast(mail, live, n, Singles(p), nets.gather);
      Unfold(nets);
      if first.None? { return; }
      ContractKeys(n, live, Singles(p), first.value.r, Everywhere(live, first.value.b));
      var second, batches2 := Broadcast(mail, live, n, first.value.r, nets.spread);
      Unfold(nets);
      if second.None? { return; }
      AllHave(live, second.value.b);
      var third, batches3 := Broadcast(mail, live, n, Everywhere(live, second.value.b), nets.common);
      Unfold(nets);
      if third.None? { return; }
      ok, e, c, u := true, second.value.r, third.value.r, third.value.b;
      rd := Round(p, first.value.r, e, Everywhere(live, second.value.b), c, Everywhere(live, u));
      RoundFollows(n, live, replicas, rd, first.value.b, second.value.b, u);
      if NothingLost(live, nets) {
        HeardBy(live, rd, second.value.b, u);
      }
    }

    /** One round: draw, three broadcasts, update every live replica. It fails, changing no
        replica, exactly as its broadcasts do. */
    method RunRound(draw: nat -> nat, nets: Networks) returns (ok: bool, newly: set<nat>, ghost rd: Round)
      requires Valid()
      modifies this`replicas, mail
      ensures Valid()
      ensures ok ==> Next(n, old(Snapshot()), Completed(rd), Snapshot()) && SharedB(live, rd)
      ensures ok ==> newly == Deciders(live, old(replicas), replicas)
      ensures ok ==> rd.p.Keys == live && ProposesAsDrawn(live, old(replicas), draw, rd.p)
      ensures !ok ==> replicas == old(replicas) && newly == {}
      ensures 2 * |live| > n && Fair(live, nets) ==> ok
      ensures 2 * |live| > n && NothingLost(live, nets) ==> ok && WinnerTakesAll(live, rd.p, old(replicas), replicas)
    {
      hide RoundOk, Next, Deciders, SharedB, Fair, NothingLost, WinnerTakesAll, AllHeard;
      var p := Proposed(live, replicas, draw);
      var e, c, u;
      ok, e, c, u, rd := Exchange(p, nets);
      newly := {};
      if !ok { return; }
      ghost var before := replicas;
      newly := Conclude(e, c, u, rd);
      if 2 * |live| > n && NothingLost(live, nets) {
        LosslessRound(n, live, before, rd, replicas);
      }
    }

    lemma Unfold(nets: Networks)
      ensures Valid() <==> live <= replicas.Keys == mail.received.Keys && |replicas.Keys| == n
      ensures Snapshot() == State(live, replicas)
      ensures Fair(live, nets) ==> EventuallyDelivers(live, nets.gather)
                                   && EventuallyDelivers(live, nets.spread) && EventuallyDelivers(live, nets.common)
      ensures NothingLost(live, nets) ==> Lossless(live, nets.gather)
                                          && Lossless(live, nets.spread) && Lossless(live, nets.common)
    {
    }

    /** Take the round's results into every live replica; no set is ever empty here. */
    method Conclude(e: map<nat, ProposalSet>, c: map<nat, ProposalSet>, u: ProposalSet, ghost rd: Round) returns (newly: set<nat>)
      requires Valid() && RoundOk(n, live, replicas, rd)
      requires rd.existent == e && rd.common == c && rd.universal == Everywhere(live, u)
      modifies this`replicas
      ensures replicas.Keys == old(replicas).Keys
      ensures Next(n, old(Snapshot()), Completed(rd), Snapshot())
      ensures newly == Deciders(live, old(replicas), replicas)
    {
      hide RoundOk, Le, Updated, Next;
      ghost var before := replicas;
      CommonInhabited(n, live, replicas, rd);
      newly := {};
      var todo := live;
      var uBest := Best(u);
      while todo != {}
        invariant todo <= live && Partly(live, todo, before, rd, u, replicas)
        invariant newly == Deciders(live - todo, before, replicas)
        invariant replicas.Keys == before.Keys
        invariant forall i | i in todo :: replicas[i] == before[i]
      {
        var id :| id in todo;
        var cBest, eBest := Best(c[id]).value, Best(e[id]);
        var st := replicas[id];
        var decides := st.decided.None? && eBest == uBest;
        ghost var earlier := replicas;
        var st' := Replica(cBest.value, if decides then Some(cBest.value) else st.decided, st.rounds + 1);
        UpdatedIs(st, e[id], c[id], u, st');
        replicas := replicas[id := st'];
        OneMore(live, todo, before, rd, u, earlier, id, st');
        if decides {
          newly := newly + {id};
        }
        todo := todo - {id};
      }
      assert live - todo == live;
      RoundAdvances(n, live, before, rd, replicas, u);
    }

    lemma StillUndecided()
      requires Valid() && !AllLiveDecided()
      ensures SomeUndecided(Snapshot())
    {
    }

    /** Run rounds until every live replica has decided, or `maxRounds` have run. */
    method RunSlot(maxRounds: nat, draws: nat -> nat -> nat, nets: nat -> Networks)
      returns (ok: bool, rounds: nat, ghost states: seq<State>, ghost rds: seq<Round>)
      requires Valid()
      modifies this`replicas, mail
      ensures Valid() && rounds <= maxRounds
      ensures ok && rounds < maxRounds ==> AllLiveDecided()
      ensures |rds| == rounds && Path(n, states, rds) && states[0] == old(Snapshot()) && states[rounds] == Snapshot()
      ensures 2 * |live| > n && (forall k :: Fair(live, nets(k))) ==> ok
      ensures forall k | 0 <= k < rounds :: SomeUndecided(states[k])
      ensures 2 * |live| > n && maxRounds > 0 && (forall k :: NothingLost(live, nets(k))) ==> ok && rounds <= 1 && AllLiveDecided()
    {
      hide Next, RoundOk, Path, Fair, NothingLost, SharedB, Deciders, WinnerTakesAll, ProposesAsDrawn, SomeUndecided;
      rounds, ok := 0, true;
      OnePath(n, Snapshot());
      states, rds := [Snapshot()], [];
      while rounds < maxRounds && !AllLiveDecided()
        invariant Valid() && rounds <= maxRounds && ok
        invariant |states| == rounds + 1 && |rds| == rounds && Path(n, states, rds)
        invariant states[0] == old(Snapshot()) && states[rounds] == Snapshot()
        invariant forall k | 0 <= k < rounds :: SomeUndecided(states[k])
        invariant 2 * |live| > n && (forall k :: NothingLost(live, nets(k))) && rounds > 0 ==> rounds == 1 && AllLiveDecided()
        decreases maxRounds - rounds
      {
        StillUndecided();
        ghost var before := replicas;
        var done, newly, rd := RunRound(draws(rounds), nets(rounds));
        if !done {
          ok := false;
          return;
        }
        if 2 * |live| > n && NothingLost(live, nets(rounds)) {
          AllTook(live, rd.p, before, replicas);
        }
        PathGrows(n, states, rds, rd, Snapshot());
        states, rds := states + [Snapshot()], rds + [rd];
        rounds := rounds + 1;
      }
    }
  }

  lemma {:induction false} AllSingles(p: map<nat, Proposal>, live: set<nat>)
    requires p.Keys == live
    ensures InputsOf(Singles(p), live) == set i | i in live :: p[i]
  {
  }

  lemma {:induction false} AllTheSame(live: set<nat>, inputs: map<nat, ProposalSet>, s: ProposalSet)
    requires live != {} && live <= inputs.Keys && forall i | i in live :: inputs[i] == s
    ensures InputsOf(inputs, live) == s
  {
    var i :| i in live;
    forall p | p in s ensures p in InputsOf(inputs, live) {
      assert p in inputs[i];
    }
  }

  ghost predicate AllHeard(live: set<nat>, rd: Round) {
    && live != {} && rd.p.Keys == live && live <= rd.gathered.Keys
    && HearsAll(live, Singles(rd.p), rd.gathered) && HearsAll(live, rd.gathered, rd.existent)
    && exists b :: b in rd.gathered.Values && rd.propagated == Everywhere(live, b)
                   && rd.universal == Everywhere(live, b) && HearsAll(live, Everywhere(live, b), rd.common)
  }

  lemma {:induction false} HeardBy(live: set<nat>, rd: Round, b: ProposalSet, u: ProposalSet)
    requires live != {} && rd.p.Keys == live && rd.gathered.Keys == live
    requires HearsAll(live, Singles(rd.p), rd.gathered) && HearsAll(live, rd.gathered, rd.existent)
    requires Minimum(live) in live && b == rd.gathered[Minimum(live)] && rd.propagated == Everywhere(live, b)
    requires HearsAll(live, Everywhere(live, b), rd.common)
    requires Everywhere(live, b).Keys == live && u == Everywhere(live, b)[Minimum(live)] && rd.universal == Everywhere(live, u)
    ensures AllHeard(live, rd)
  {
    hide HearsAll;
    assert u == b;
  }

  /** When every broadcast hears everyone, all sets of the round are the proposals made. */
  lemma {:induction false} LosslessRound(n: nat, live: set<nat>, before: map<nat, Replica>, rd: Round, after: map<nat, Replica>)
    requires RoundOk(n, live, before, rd) && AllHeard(live, rd)
    requires Next(n, State(live, before), Completed(rd), State(live, after))
    ensures WinnerTakesAll(live, rd.p, before, after)
  {
    RoundShape(n, live, before, rd);
    hide RoundOk, Le, InputsOf;
    var all := set i | i in live :: rd.p[i];
    var b :| b in rd.gathered.Values && rd.propagated == Everywhere(live, b)
             && rd.universal == Everywhere(live, b) && HearsAll(live, Everywhere(live, b), rd.common);
    AllSingles(rd.p, live);
    AllTheSame(live, rd.gathered, all);
    AllTheSame(live, Everywhere(live, b), all);
    assert forall i | i in live :: rd.existent[i] == all && rd.common[i] == all && rd.universal[i] == all;
    WinnerOf(live, rd.p, all, before, rd, after);
  }

  lemma {:induction false} RoundShape(n: nat, live: set<nat>, replicas: map<nat, Replica>, rd: Round)
    requires RoundOk(n, live, replicas, rd)
    ensures live <= replicas.Keys && rd.existent.Keys == rd.common.Keys == rd.universal.Keys == live == rd.gathered.Keys
  {
  }

  lemma {:induction false} WinnerOf(
    live: set<nat>, p: map<nat, Proposal>, all: ProposalSet, before: map<nat, Replica>, rd: Round, after: map<nat, Replica>)
    requires live != {} && p.Keys == live && all == set i | i in live :: p[i]
    requires live <= before.Keys && rd.existent.Keys == rd.common.Keys == rd.universal.Keys == live
    requires forall i | i in live :: rd.existent[i] == all && rd.common[i] == all && rd.universal[i] == all
    requires Advanced(live, before, rd, after)
    ensures WinnerTakesAll(live, p, before, after)
  {
    hide Le;
    var i0 :| i0 in live;
    assert p[i0] in all;
    var best := Best(all).value;
    var w :| w in live && p[w] == best;
    forall j | j in live ensures Le(p[j], p[w]) {
      assert p[j] in all;
    }
    forall i | i in live
      ensures after[i].v == p[w].value
      ensures after[i].decided == if before[i].decided.None? then Some(p[w].value) else before[i].decided
    {
      assert Moved(live, rd, i, before[i], after[i]);
    }
  }

  ghost predicate SomeUndecided(s: State) {
    s.live == {} || exists i :: i in s.live && i in s.replicas && s.replicas[i].decided.None?
  }

  lemma {:induction false} AllTook(live: set<nat>, p: map<nat, Proposal>, before: map<nat, Replica>, after: map<nat, Replica>)
    requires WinnerTakesAll(live, p, before, after)
    ensures live != {} && live <= after.Keys && forall i | i in live :: after[i].decided.Some?
  {
    hide Le;
  }

  /** Completed rounds, one after another. */
  ghost predicate Path(n: nat, states: seq<State>, rds: seq<Round>) {
    && |states| == |rds| + 1
    && forall k | 0 <= k < |rds| :: Next(n, states[k], Completed(rds[k]), states[k + 1])
  }

  lemma {:induction false} OnePath(n: nat, s: State)
    ensures Path(n, [s], [])
  {
  }

  lemma {:induction false} PathGrows(n: nat, states: seq<State>, rds: seq<Round>, rd: Round, s: State)
    requires Path(n, states, rds) && Next(n, states[|rds|], Completed(rd), s)
    ensures Path(n, states + [s], rds + [rd])
  {
    hide Next;
  }

  /** The replicas of `among` that delivered between `before` and `after`. */
  function Deciders(among: set<nat>, before: map<nat, Replica>, after: map<nat, Replica>): set<nat> {
    set i | i in among && i in before && i in after && before[i].decided.None? && after[i].decided.Some?
  }

  lemma {:induction false} UpdatedIs(st: Replica, e: ProposalSet, c: ProposalSet, u: ProposalSet, st': Replica)
    requires c != {}
    requires var v, decides := Best(c).value.value, st.decided.None? && Best(e) == Best(u);
             st' == Replica(v, if decides then Some(v) else st.decided, st.rounds + 1)
    ensures st' == Updated(st, e, c, u)
  {
  }

  ghost predicate Carried(live: set<nat>, todo: set<nat>, rd: Round, u: ProposalSet, i: nat, before: Replica, after: Replica)
    requires rd.existent.Keys == rd.common.Keys == live
  {
    if i in live && i !in todo then rd.common[i] != {} && after == Updated(before, rd.existent[i], rd.common[i], u)
    else after == before
  }

  /** The round's results have reached every live replica outside `todo`. */
  ghost predicate Partly(live: set<nat>, todo: set<nat>, before: map<nat, Replica>, rd: Round, u: ProposalSet, after: map<nat, Replica>)
    requires rd.existent.Keys == rd.common.Keys == live
  {
    after.Keys == before.Keys && forall i | i in before :: Carried(live, todo, rd, u, i, before[i], after[i])
  }

  lemma {:induction false} OneMore(
    live: set<nat>, todo: set<nat>, before: map<nat, Replica>, rd: Round, u: ProposalSet, after: map<nat, Replica>, id: nat, st: Replica)
    requires rd.existent.Keys == rd.common.Keys == live && Partly(live, todo, before, rd, u, after)
    requires id in todo && todo <= live && id in before && rd.common[id] != {}
    requires st == Updated(before[id], rd.existent[id], rd.common[id], u)
    ensures Partly(live, todo - {id}, before, rd, u, after[id := st])
  {
    hide Updated, Le;
    forall i | i in before
      ensures Carried(live, todo - {id}, rd, u, i, before[i], after[id := st][i])
    {
      assert Carried(live, todo, rd, u, i, before[i], after[i]);
    }
  }

  lemma {:induction false} RoundHolds(n: nat, live: set<nat>, replicas: map<nat, Replica>, rd: Round, b: map<nat, ProposalSet>)
    requires live <= replicas.Keys && rd.p.Keys == live
    requires forall i | i in live :: rd.p[i].value == replicas[i].v && rd.p[i].origin == i
    requires Contract(n, live, Singles(rd.p), rd.gathered, b)
    requires rd.gathered.Keys == live && Contract(n, live, rd.gathered, rd.existent, rd.propagated)
    requires rd.propagated.Keys == live && Contract(n, live, rd.propagated, rd.common, rd.universal)
    ensures RoundOk(n, live, replicas, rd)
  {
    hide Genuine, Universal;
  }

  lemma {:induction false} RoundFollows(
    n: nat, live: set<nat>, replicas: map<nat, Replica>, rd: Round, b1: ProposalSet, b2: ProposalSet, u: ProposalSet)
    requires live <= replicas.Keys && rd.p.Keys == live
    requires forall i | i in live :: rd.p[i].value == replicas[i].v && rd.p[i].origin == i
    requires Contract(n, live, Singles(rd.p), rd.gathered, Everywhere(live, b1)) && live <= rd.gathered.Keys
    requires Contract(n, live, rd.gathered, rd.existent, rd.propagated) && live <= rd.propagated.Keys
    requires Contract(n, live, rd.propagated, rd.common, rd.universal)
    requires rd.propagated == Everywhere(live, b2) && rd.universal == Everywhere(live, u)
    ensures RoundOk(n, live, replicas, rd) && SharedB(live, rd)
  {
    ContractKeys(n, live, Singles(rd.p), rd.gathered, Everywhere(live, b1));
    hide Contract;
    RoundHolds(n, live, replicas, rd, Everywhere(live, b1));
  }

  lemma {:induction false} AllHave(live: set<nat>, b: ProposalSet)
    ensures Everywhere(live, b).Keys == live
  {
  }

  lemma {:induction false} ContractKeys(n: nat, live: set<nat>, inputs: map<nat, ProposalSet>, r: map<nat, ProposalSet>, b: map<nat, ProposalSet>)
    requires live <= inputs.Keys && Contract(n, live, inputs, r, b)
    ensures r.Keys == live && b.Keys == live
  {
  }

  lemma {:induction false} CommonInhabited(n: nat, live: set<nat>, replicas: map<nat, Replica>, rd: Round)
    requires RoundOk(n, live, replicas, rd)
    ensures live <= replicas.Keys && rd.common.Keys == rd.existent.Keys == rd.universal.Keys == live
    ensures forall i | i in live :: rd.common[i] != {} && rd.existent[i] != {} && rd.universal[i] != {}
  {
    hide Contract, Le;
    forall i | i in live
      ensures rd.common[i] != {} && rd.existent[i] != {} && rd.universal[i] != {}
    {
      Crux(n, live, replicas, rd, i, i, i);
    }
  }

  lemma {:induction false} RoundAdvances(
    n: nat, live: set<nat>, before: map<nat, Replica>, rd: Round, after: map<nat, Replica>, u: ProposalSet)
    requires RoundOk(n, live, before, rd) && rd.universal == Everywhere(live, u)
    requires rd.existent.Keys == rd.common.Keys == live && Partly(live, {}, before, rd, u, after)
    ensures Next(n, State(live, before), Completed(rd), State(live, after))
  {
    hide Contract, Le, RoundOk;
    forall i | i in before
      ensures Moved(live, rd, i, before[i], after[i])
    {
      assert Carried(live, {}, rd, u, i, before[i], after[i]);
    }
  }
}
