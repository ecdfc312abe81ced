/** Why each proposer may be kicked off only once: a second kickoff, met by replies to the
    first attempt that are still about, lets two values be decided. */
module Tightness {
  import opened Proposals
  import opened Recorders
  import opened Concrete
  import opened Safety
  import opened Runs
  import Isr
  import P = Proposer

  const SLOT: nat := 0

  function Member(id: nat, initial: int): P.Config {
    P.Config(id, 3, initial, None, SLOT, 0)
  }

  /** Three recorders and two ordinary proposers. */
  function TwoProposers(): Config {
    Config(3, SLOT, [Member(0, 1), Member(1, 2)])
  }

  const MINE: Proposal := Proposal(1, 50, 0)
  const THEIRS: Proposal := Proposal(2, 90, 1)
  const LATE: Proposal := Proposal(2, 50, 0)

  function At(t: nat, first: Proposal, agg: Proposal, prior: Option<Proposal>): Isr.Register {
    Isr.Register(t, Some(first), Some(agg), prior)
  }

  /** Recorders 0 and 1 stand at `i`; recorder 2 has seen only the other proposal. */
  function Trio(i: Isr.Register): seq<Isr.Register> {
    [i, i, At(4, THEIRS, THEIRS, None)]
  }

  const PAIR: set<nat> := {0, 1}

  /** What recorders 0 and 1 tell proposer 0 about `MINE` at steps 4 and 5. */
  function EarlyReply(t: nat): Response
    requires t == 4 || t == 5
  {
    Response(SLOT, t, t, Some(MINE), if t == 5 then Some(THEIRS) else None)
  }

  /** Replies to proposer 0's first attempt that are still about. */
  ghost predicate Lingering(s: Sys) {
    Resp(0, 0, EarlyReply(4)) in s.net && Resp(0, 0, EarlyReply(5)) in s.net && Resp(1, 0, EarlyReply(5)) in s.net
  }

  /** One exchange of proposer `a` with recorders 0 and 1, which end up at `i`. */
  lemma {:induction false} PairExchange(s: Sys, a: nat, t: nat, q: Proposal, before: Isr.Register, i: Isr.Register, v: Verdict, q': Proposal)
    returns (s': Sys)
    requires Possible(TwoProposers(), s) && a < 2 && Began(TwoProposers(), s, a, t, q) && s.recorders == Trio(before)
    requires i == Handled(before, Request(SLOT, t, q)) && i.step == t && i.first.Some?
    requires if t % 4 == 0 then v.Adopts? && i.first == Some(v.p) && v.p.priority < H
             else if t % 4 == 1 then v == Adopts(q)
             else if t % 4 == 2 then i.priorAgg.Some? && v == if i.priorAgg == Some(q) then Decides(q.value) else Adopts(q)
             else v.Adopts? && i.priorAgg == Some(v.p)
    requires v.Adopts? ==> Begins(TwoProposers().proposers[a], v.p, t + 1, 50, q')
    ensures var c := TwoProposers();
            && Possible(c, s') && s'.recorders == Trio(i) && s'.kicks == s.kicks && s.net <= s'.net
            && OthersElsewhere(s, s', a) && a < |s'.proposers|
            && Resp(0, a, Reply(i, Request(SLOT, t, q))) in s'.net && Resp(1, a, Reply(i, Request(SLOT, t, q))) in s'.net
            && match v
               case Decides(x) => s'.proposers[a].decided == Some(x)
               case Adopts(_) => Began(c, s', a, t + 1, q')
  {
    var c := TwoProposers();
    var replies := RepliesOf(c, Trio(i), PAIR, t, q);
    assert 0 in replies;
    assert forall r | r in replies :: replies[r] == Reply(i, Asking(c, t, q));
    if t % 4 == 0 {
      assert TopFirst(replies, v.p);
    } else if t % 4 == 2 {
      assert AllPrior(replies, i.priorAgg.value);
    }
    hide Possible, Began, Begins;
    s' := Exchange(c, s, a, t, q, PAIR, Trio(i), v, 50, q');
  }

  /** Both have started, and recorder 2 first saw the other proposal. */
  lemma {:induction false} BothStart() returns (s: Sys)
    ensures var c := TwoProposers();
            && Possible(c, s) && s.kicks == [1, 1] && Began(c, s, 0, 4, MINE) && Began(c, s, 1, 4, THEIRS)
            && s.recorders == Trio(Isr.EMPTY)
  {
    var c := TwoProposers();
    StartIsPossible(c);
    var s0 := Kicking(c, Init(c), 0, 50, MINE);
    assert Elsewhere(Init(c), s0, 1);
    var s1 := Kicking(c, s0, 1, 90, THEIRS);
    BeganStays(c, s0, s1, 0, 4, MINE);
    s := Handling(c, s1, 1, 2, 4, THEIRS);
    BeganStays(c, s1, s, 0, 4, MINE);
    BeganStays(c, s1, s, 1, 4, THEIRS);
  }

  /** Proposer 0 hears from recorders 0 and 1 at step 4. */
  lemma {:induction false} FirstAttempt() returns (s: Sys)
    ensures var c := TwoProposers();
            && Possible(c, s) && s.kicks == [1, 1] && Resp(0, 0, EarlyReply(4)) in s.net
            && Began(c, s, 0, 5, MINE) && Began(c, s, 1, 4, THEIRS)
            && s.recorders == Trio(At(4, MINE, MINE, None))
  {
    var s0 := BothStart();
    s := PairExchange(s0, 0, 4, MINE, Isr.EMPTY, At(4, MINE, MINE, None), Adopts(MINE), MINE);
    assert Elsewhere(s0, s, 1);
    BeganStays(TwoProposers(), s0, s, 1, 4, THEIRS);
  }

  /** Proposer 1 moves to step 5 with `MINE`; recorders 0 and 1 handle proposer 0's step 5,
      and their replies linger. */
  lemma {:induction false} RepliesLinger() returns (s: Sys)
    ensures var c := TwoProposers();
            && Possible(c, s) && s.kicks == [1, 1] && Lingering(s)
            && Began(c, s, 0, 5, MINE) && Began(c, s, 1, 5, MINE)
            && s.recorders == Trio(At(5, MINE, MINE, Some(THEIRS)))
  {
    var c := TwoProposers();
    var s0 := FirstAttempt();
    var s1 := PairExchange(s0, 1, 4, THEIRS, At(4, MINE, MINE, None), At(4, MINE, THEIRS, None), Adopts(MINE), MINE);
    assert Elsewhere(s0, s1, 0);
    BeganStays(c, s0, s1, 0, 5, MINE);
    s := AskAll(c, s1, 0, 5, MINE, PAIR);
    BeganStays(c, s1, s, 0, 5, MINE);
    BeganStays(c, s1, s, 1, 5, MINE);
    assert s.recorders == Trio(At(5, MINE, MINE, Some(THEIRS)));
    RepliesKnown(c, s, 0, s.recorders, PAIR, 5, MINE);
    assert 0 in PAIR && 1 in PAIR;
  }

  /** Proposer 1 decides on `MINE`. */
  lemma {:induction false} OtherDecides() returns (s: Sys)
    ensures var c := TwoProposers();
            && Possible(c, s) && s.kicks == [1, 1] && Lingering(s)
            && Began(c, s, 0, 5, MINE) && |s.proposers| == 2 && s.proposers[1].decided == Some(1)
            && s.recorders == Trio(At(6, MINE, MINE, Some(MINE)))
  {
    var c := TwoProposers();
    var s0 := RepliesLinger();
    var i5, i6 := At(5, MINE, MINE, Some(THEIRS)), At(6, MINE, MINE, Some(MINE));
    var s1 := PairExchange(s0, 1, 5, MINE, i5, i5, Adopts(MINE), MINE);
    assert Elsewhere(s0, s1, 0);
    BeganStays(c, s0, s1, 0, 5, MINE);
    s := PairExchange(s1, 1, 6, MINE, i5, i6, Decides(1), MINE);
    assert Elsewhere(s1, s, 0);
    BeganStays(c, s1, s, 0, 5, MINE);
    PossibleShape(c, s);
  }

  /** Kicked off again, proposer 0 asks recorder 2, and hears of `THEIRS`. */
  lemma {:induction false} KickedAgain() returns (s: Sys)
    ensures var c := TwoProposers();
            && Possible(c, s) && s.kicks == [2, 1] && Lingering(s)
            && |s.proposers| == 2 && s.proposers[1].decided == Some(1)
            && Began(c, s, 0, 4, MINE) && Resp(2, 0, Response(SLOT, 4, 4, Some(THEIRS), None)) in s.net
            && s.recorders == Trio(At(6, MINE, MINE, Some(MINE)))
  {
    var c := TwoProposers();
    var s0 := OtherDecides();
    var s1 := Kicking(c, s0, 0, 50, MINE);
    assert Elsewhere(s0, s1, 1);
    s := Handling(c, s1, 0, 2, 4, MINE);
    BeganStays(c, s1, s, 0, 4, MINE);
  }

  /** It adopts `THEIRS` with the help of an old reply, and takes its old step-5 replies for
      support it never had. */
  lemma {:induction false} SecondAttempt() returns (s: Sys)
    ensures var c := TwoProposers();
            && Possible(c, s) && s.kicks == [2, 1] && |s.proposers| == 2 && s.proposers[1].decided == Some(1)
            && Began(c, s, 0, 6, THEIRS) && s.recorders == Trio(At(6, MINE, MINE, Some(MINE)))
  {
    var c := TwoProposers();
    var s0 := KickedAgain();
    var fourth: map<nat, Response> := map[0 := EarlyReply(4), 2 := Response(SLOT, 4, 4, Some(THEIRS), None)];
    assert fourth[0] == EarlyReply(4) && fourth[2].first == Some(THEIRS);
    assert TopFirst(fourth, THEIRS);
    var s1 := Concluding(c, s0, 0, 4, MINE, fourth, Adopts(THEIRS), 50, THEIRS);
    assert Elsewhere(s0, s1, 1);
    var fifth: map<nat, Response> := map[0 := EarlyReply(5), 1 := EarlyReply(5)];
    assert fifth[0] == EarlyReply(5);
    s := Concluding(c, s1, 0, 5, THEIRS, fifth, Adopts(THEIRS), 50, THEIRS);
    assert Elsewhere(s1, s, 1);
  }

  /** The unsupported proposal is gathered in phase 3 and carried into the next round. */
  lemma {:induction false} NextRound() returns (s: Sys)
    ensures var c := TwoProposers();
            && Possible(c, s) && s.kicks == [2, 1] && |s.proposers| == 2 && s.proposers[1].decided == Some(1)
            && Began(c, s, 0, 8, LATE) && s.recorders == Trio(At(7, THEIRS, THEIRS, Some(THEIRS)))
  {
    var s0 := SecondAttempt();
    var i := At(6, MINE, THEIRS, Some(MINE));
    var s1 := PairExchange(s0, 0, 6, THEIRS, At(6, MINE, MINE, Some(MINE)), i, Adopts(THEIRS), THEIRS);
    assert Elsewhere(s0, s1, 1);
    s := PairExchange(s1, 0, 7, THEIRS, i, At(7, THEIRS, THEIRS, Some(THEIRS)), Adopts(THEIRS), LATE);
    assert Elsewhere(s1, s, 1);
  }

  /** Kicking an active proposer off again lets two values be decided. */
  lemma {:induction false} SecondKickDisagrees() returns (acts: seq<Action>)
    ensures var c := TwoProposers();
            && WellFormed(c) && LeadersAgree(c)
            && Exec(c, acts).kicks == [2, 1] && !Agreement(Exec(c, acts))
  {
    var c := TwoProposers();
    var s8 := NextRound();
    var i7, i8 := At(7, THEIRS, THEIRS, Some(THEIRS)), At(8, LATE, LATE, Some(THEIRS));
    var i9, i10 := At(9, LATE, LATE, Some(LATE)), At(10, LATE, LATE, Some(LATE));
    var s9 := PairExchange(s8, 0, 8, LATE, i7, i8, Adopts(LATE), LATE);
    var s10 := PairExchange(s9, 0, 9, LATE, i8, i9, Adopts(LATE), LATE);
    var s11 := PairExchange(s10, 0, 10, LATE, i9, i10, Decides(2), LATE);
    assert Elsewhere(s8, s9, 1) && Elsewhere(s9, s10, 1) && Elsewhere(s10, s11, 1);
    acts :| s11 == Exec(c, acts);
    assert s11.proposers[1].decided == Some(1) && s11.proposers[0].decided == Some(2);
  }

  ghost predicate KickedAtMost(s: Sys, k: nat) {
    forall a | 0 <= a < |s.kicks| :: s.kicks[a] <= k
  }

  ghost predicate SafeUpTo(k: nat) {
    forall c, acts ::
      WellFormed(c) && Uncontested(c) && KickedAtMost(Exec(c, acts), k) ==> Agreement(Exec(c, acts))
  }

  /** Kickoffs of an undecided proposer that agreement tolerates: one, and not two. */
  lemma {:induction false} OneKickIsTheLimit(k: nat)
    ensures SafeUpTo(k) <==> k <= 1
  {
    if k <= 1 {
      forall c, acts | WellFormed(c) && Uncontested(c) && KickedAtMost(Exec(c, acts), k)
        ensures Agreement(Exec(c, acts))
      {
        assert StartedOnce(Exec(c, acts));
        AgreementHolds(c, acts);
      }
    } else {
      var acts := SecondKickDisagrees();
      assert KickedAtMost(Exec(TwoProposers(), acts), k);
    }
  }
}
