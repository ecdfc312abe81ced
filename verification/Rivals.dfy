/** Exactly when leaders may disagree: with three recorders or more, two proposers that take
    themselves for the leader and start from different values can both decide; with fewer, or
    when such proposers start from one value, they cannot. */
module Rivals {
  import opened Proposals
  import opened Recorders
  import opened Concrete
  import opened Safety
  import opened Runs
  import Isr
  import P = Proposer

  function Reserved(pc: P.Config): Proposal {
    Proposal(pc.initial, H, pc.selfId)
  }

  /** Leaders `a` and `b` start from different values, and `b`'s proposal is the better one. */
  ghost predicate AreRivals(c: Config, a: nat, b: nat) {
    && WellFormed(c) && c.n >= 3 && a < |c.proposers| && b < |c.proposers| && a != b
    && c.proposers[a].IsLeader() && c.proposers[b].IsLeader()
    && c.proposers[a].initial != c.proposers[b].initial
    && Le(Reserved(c.proposers[a]), Reserved(c.proposers[b]))
  }

  function At(t: nat, first: Proposal, agg: Proposal, prior: Option<Proposal>): Isr.Register {
    Isr.Register(t, Some(first), Some(agg), prior)
  }

  /** The recorders from `lo` on, up to but not including `hi`. */
  function Range(lo: nat, hi: nat): (who: set<nat>)
    requires lo <= hi
    ensures forall r: nat :: r in who <==> lo <= r < hi
    ensures |who| == hi - lo
  {
    if lo == hi then {}
    else
      var less := Range(lo, hi - 1);
      assert hi - 1 !in less;
      less + {hi - 1}
  }

  /** The first half and one more: a majority. */
  function Early(c: Config): set<nat>
    requires c.n >= 3
  {
    Range(0, c.n / 2 + 1)
  }

  function Rest(c: Config): set<nat>
    requires c.n >= 3
  {
    Range(c.n / 2 + 1, c.n)
  }

  /** The last half and one more: another majority, with at least one early recorder in it and
      at least one that is not. */
  function Last(c: Config): set<nat>
    requires c.n >= 3
  {
    Range(c.n - (c.n / 2 + 1), c.n)
  }

  /** Early recorders recorded `p` first, the rest `q`. */
  function SplitFirst(c: Config, r: nat, p: Proposal, q: Proposal): Proposal {
    if r < c.n / 2 + 1 then p else q
  }

  function SplitRegisters(c: Config, p: Proposal, q: Proposal): seq<Isr.Register> {
    seq(c.n, r requires 0 <= r < c.n => At(4, SplitFirst(c, r, p, q), SplitFirst(c, r, p, q), None))
  }

  /** A recorder that recorded `first` and then handled `q` for step 4, or for all steps to `t`. */
  function Onward(t: nat, first: Proposal, q: Proposal): Isr.Register {
    if t == 4 then At(4, first, q, None) else At(t, q, q, Some(q))
  }

  /** The last majority has handled `q` for step `t`. */
  function LastAt(c: Config, p: Proposal, q: Proposal, t: nat): seq<Isr.Register> {
    seq(c.n, r requires 0 <= r < c.n =>
      if c.n - (c.n / 2 + 1) <= r then Onward(t, SplitFirst(c, r, p, q), q)
      else At(4, SplitFirst(c, r, p, q), SplitFirst(c, r, p, q), None))
  }

  /** Only the rest has recorded anything: `q`. */
  function RestFirst(c: Config, q: Proposal): seq<Isr.Register> {
    seq(c.n, r requires 0 <= r < c.n => if c.n / 2 + 1 <= r then At(4, q, q, None) else Isr.EMPTY)
  }

  /** Both reserved proposals are out, and the rest of the recorders has recorded the better. */
  lemma {:induction false} BothStart(c: Config, a: nat, b: nat) returns (s: Sys)
    requires AreRivals(c, a, b)
    ensures var p, q := Reserved(c.proposers[a]), Reserved(c.proposers[b]);
            && Possible(c, s) && Began(c, s, a, 4, p) && Began(c, s, b, 4, q) && StartedOnce(s)
            && s.recorders == RestFirst(c, q)
  {
    var p, q := Reserved(c.proposers[a]), Reserved(c.proposers[b]);
    StartIsPossible(c);
    var s0 := Kicking(c, Init(c), a, 1, p);
    assert Elsewhere(Init(c), s0, b);
    var s1 := Kicking(c, s0, b, 1, q);
    BeganStays(c, s0, s1, a, 4, p);
    s := AskAll(c, s1, b, 4, q, Rest(c));
    BeganStays(c, s1, s, a, 4, p);
    BeganStays(c, s1, s, b, 4, q);
    assert s1.recorders == Init(c).recorders;
    assert Handled(Isr.EMPTY, Asking(c, 4, q)) == At(4, q, q, None);
    assert HandledBy(c, s1, s, 4, q, Rest(c));
    forall r: nat | r < c.n ensures s.recorders[r] == RestFirst(c, q)[r] {
      assert s1.recorders[r] == Isr.EMPTY && (r in Rest(c) <==> c.n / 2 + 1 <= r);
    }
  }

  lemma {:induction false} FirstLeads(c: Config, p: Proposal, q: Proposal)
    requires c.n >= 3 && p.priority == H
    ensures Leads(4, p, RepliesOf(c, SplitRegisters(c, p, q), Early(c), 4, p), Decides(p.value))
  {
    var replies := RepliesOf(c, SplitRegisters(c, p, q), Early(c), 4, p);
    assert 0 in replies;
    assert AllFirst(replies, p);
  }

  /** `a` decides on its own proposal, on the fast path. */
  lemma {:induction false} LesserDecides(c: Config, a: nat, b: nat) returns (s: Sys)
    requires AreRivals(c, a, b)
    ensures var p, q := Reserved(c.proposers[a]), Reserved(c.proposers[b]);
            && Possible(c, s) && Began(c, s, b, 4, q) && StartedOnce(s)
            && a < |s.proposers| && s.proposers[a].decided == Some(p.value)
            && s.recorders == SplitRegisters(c, p, q)
  {
    var p, q := Reserved(c.proposers[a]), Reserved(c.proposers[b]);
    var s0 := BothStart(c, a, b);
    FirstLeads(c, p, q);
    hide Possible, Began, Leads, Begins;
    s := Exchange(c, s0, a, 4, p, Early(c), SplitRegisters(c, p, q), Decides(p.value), 1, p);
    assert Elsewhere(s0, s, b) by { BeganShape(c, s0, b, 4, q); }
    BeganStays(c, s0, s, b, 4, q);
  }

  lemma {:induction false} BeganShape(c: Config, s: Sys, a: nat, t: nat, q: Proposal)
    requires Began(c, s, a, t, q)
    ensures a < |s.proposers|
  {
  }

  lemma {:induction false} SecondLeads(c: Config, p: Proposal, q: Proposal)
    requires c.n >= 3 && p != q && Le(p, q)
    ensures Leads(4, q, RepliesOf(c, LastAt(c, p, q, 4), Last(c), 4, q), Adopts(q))
  {
    var replies := RepliesOf(c, LastAt(c, p, q, 4), Last(c), 4, q);
    var lo, hi := c.n - (c.n / 2 + 1), c.n - 1;
    assert lo in replies && replies[lo].first == Some(p);
    assert hi in replies && replies[hi].first == Some(q);
    assert TopFirst(replies, q);
  }

  lemma {:induction false} LaterLeads(c: Config, p: Proposal, q: Proposal)
    requires c.n >= 3
    ensures Leads(5, q, RepliesOf(c, LastAt(c, p, q, 5), Last(c), 5, q), Adopts(q))
    ensures Leads(6, q, RepliesOf(c, LastAt(c, p, q, 6), Last(c), 6, q), Decides(q.value))
  {
    assert c.n - 1 in RepliesOf(c, LastAt(c, p, q, 5), Last(c), 5, q);
    var replies := RepliesOf(c, LastAt(c, p, q, 6), Last(c), 6, q);
    assert c.n - 1 in replies;
    assert AllPrior(replies, q);
  }

  /** What the last majority's registers become when they handle `q` for the next step. */
  lemma {:induction false} LastHandles(c: Config, p: Proposal, q: Proposal)
    requires c.n >= 3 && p != q && Le(p, q)
    ensures HandlesInto(c, SplitRegisters(c, p, q), 4, q, LastAt(c, p, q, 4))
    ensures HandlesInto(c, LastAt(c, p, q, 4), 5, q, LastAt(c, p, q, 5))
    ensures HandlesInto(c, LastAt(c, p, q, 5), 6, q, LastAt(c, p, q, 6))
  {
    assert Max(p, q) == q == Max(q, p) == Max(q, q);
  }

  ghost predicate HandlesInto(c: Config, before: seq<Isr.Register>, t: nat, q: Proposal, after: seq<Isr.Register>)
    requires c.n >= 3
  {
    && |before| == |after| == c.n
    && forall r: nat | r < c.n ::
         after[r] == if r in Last(c) then Handled(before[r], Asking(c, t, q)) else before[r]
  }

  /** One exchange of `b` with the last majority. */
  lemma {:induction false} LastExchange(c: Config, s: Sys, a: nat, b: nat, t: nat, q: Proposal, after: seq<Isr.Register>, v: Verdict)
    returns (s': Sys)
    requires Possible(c, s) && c.n >= 3 && a != b && b < |c.proposers| && Began(c, s, b, t, q) && StartedOnce(s)
    requires a < |s.proposers| && 4 <= t <= 6 && HandlesInto(c, s.recorders, t, q, after)
    requires Leads(t, q, RepliesOf(c, after, Last(c), t, q), v) && v == if t == 6 then Decides(q.value) else Adopts(q)
    ensures Possible(c, s') && s'.recorders == after && StartedOnce(s')
    ensures a < |s'.proposers| && s'.proposers[a] == s.proposers[a]
    ensures if t == 6 then b < |s'.proposers| && s'.proposers[b].decided == Some(q.value) else Began(c, s', b, t + 1, q)
  {
    hide Possible, Began, Leads, Handled, Follows;
    s' := Exchange(c, s, b, t, q, Last(c), after, v, 1, q);
    assert Elsewhere(s, s', a);
  }

  /** `b`, hearing the last majority, adopts its own proposal, spreads it and decides it. */
  lemma {:induction false} GreaterDecides(c: Config, a: nat, b: nat) returns (s: Sys)
    requires AreRivals(c, a, b)
    ensures var p, q := Reserved(c.proposers[a]), Reserved(c.proposers[b]);
            && Possible(c, s) && StartedOnce(s) && a < |s.proposers| && b < |s.proposers|
            && s.proposers[a].decided == Some(p.value) && s.proposers[b].decided == Some(q.value)
  {
    hide Possible, Began, Leads, StartedOnce, HandlesInto, Le;
    var p, q := Reserved(c.proposers[a]), Reserved(c.proposers[b]);
    var s0 := LesserDecides(c, a, b);
    SecondLeads(c, p, q);
    LaterLeads(c, p, q);
    LastHandles(c, p, q);
    var s4 := LastExchange(c, s0, a, b, 4, q, LastAt(c, p, q, 4), Adopts(q));
    var s5 := LastExchange(c, s4, a, b, 5, q, LastAt(c, p, q, 5), Adopts(q));
    s := LastExchange(c, s5, a, b, 6, q, LastAt(c, p, q, 6), Decides(q.value));
  }

  lemma {:induction false} RivalsDisagree(c: Config, a: nat, b: nat) returns (acts: seq<Action>)
    requires AreRivals(c, a, b)
    ensures StartedOnce(Exec(c, acts)) && !Agreement(Exec(c, acts))
  {
    var s := GreaterDecides(c, a, b);
    acts :| s == Exec(c, acts);
    hide Exec;
    assert s.proposers[a].decided != s.proposers[b].decided;
  }

  lemma {:induction false} DisagreementExists(c: Config) returns (acts: seq<Action>)
    requires WellFormed(c) && !Uncontested(c)
    ensures StartedOnce(Exec(c, acts)) && !Agreement(Exec(c, acts))
  {
    hide Exec;
    var a, b :| 0 <= a < |c.proposers| && 0 <= b < |c.proposers|
                && c.proposers[a].IsLeader() && c.proposers[b].IsLeader()
                && c.proposers[a].initial != c.proposers[b].initial;
    if Le(Reserved(c.proposers[a]), Reserved(c.proposers[b])) {
      acts := RivalsDisagree(c, a, b);
    } else {
      acts := RivalsDisagree(c, b, a);
    }
  }

  /** The exact condition, for every membership, every set of proposers and every hedging:
      all runs that start each proposer once agree if and only if those that take themselves
      for the leader start from one value, or there are at most two recorders. */
  lemma {:induction false} AgreementIffUncontested(c: Config)
    requires WellFormed(c)
    ensures (forall acts :: StartedOnce(Exec(c, acts)) ==> Agreement(Exec(c, acts)))
       <==> LeadersAgree(c) || c.n <= 2
  {
    hide Exec, StartedOnce, Agreement;
    if Uncontested(c) {
      forall acts | StartedOnce(Exec(c, acts)) ensures Agreement(Exec(c, acts)) {
        AgreementHolds(c, acts);
      }
    } else {
      var acts := DisagreementExists(c);
    }
  }
}
