/** Prioritised proposals, their total order, and `best` over a finite set of them. */
module Proposals {

  datatype Option<+T> = None | Some(value: T)

  /** The reserved maximum priority: the largest 64-bit word. */
  const H: nat := 0xFFFF_FFFF_FFFF_FFFF

  datatype Proposal = Proposal(value: int, priority: nat, origin: nat)

  /** The comparison chain: priority first, then origin, then value. */
  predicate Le(p: Proposal, q: Proposal) {
    || p.priority < q.priority
    || (p.priority == q.priority && p.origin < q.origin)
    || (p.priority == q.priority && p.origin == q.origin && p.value <= q.value)
  }

  function Max(p: Proposal, q: Proposal): (m: Proposal)
    ensures m in {p, q} && Le(p, m) && Le(q, m)
  {
    if Le(q, p) then p else q
  }

  ghost predicate IsBest(s: set<Proposal>, m: Proposal) {
    m in s && forall q | q in s :: Le(q, m)
  }

  /** A non-empty finite set has a greatest proposal, and only one. */
  lemma {:induction false} BestExists(s: set<Proposal>)
    requires s != {}
    ensures exists m :: IsBest(s, m)
    decreases |s|
  {
    var x :| x in s;
    if s == {x} {
      assert IsBest(s, x);
    } else {
      var rest := s - {x};
      assert rest == {} ==> s == {x};
      BestExists(rest);
      var m :| IsBest(rest, m);
      assert s == rest + {x};
      assert IsBest(s, Max(m, x));
    }
  }

  /** `best`: the maximum of a set of proposals, or nothing for the empty set. */
  function Best(s: set<Proposal>): (r: Option<Proposal>)
    ensures r.None? <==> s == {}
    ensures r.Some? ==> IsBest(s, r.value)
  {
    if s == {} then None
    else
      BestExists(s);
      assert exists m :: m in s && forall q | q in s :: Le(q, m) by {
        var m :| IsBest(s, m);
      }
      var m :| m in s && forall q | q in s :: Le(q, m);
      Some(m)
  }

  /** The best has the greatest priority; among those of that priority, the greatest origin;
      and among those of that origin, the greatest value. */
  lemma {:induction false} BestMeaning(s: set<Proposal>, m: Proposal)
    ensures Best(s) == Some(m) <==>
            m in s && forall q | q in s ::
              && q.priority <= m.priority
              && (q.priority == m.priority ==> q.origin <= m.origin)
              && (q.priority == m.priority && q.origin == m.origin ==> q.value <= m.value)
  {
    if IsBest(s, m) {
      var b := Best(s).value;
      assert Le(b, m) && Le(m, b);
    }
  }

  /** The squeeze used by every decision rule: nested sets whose outer and inner best
      coincide have that best in between as well. */
  lemma {:induction false} BestSqueeze(inner: set<Proposal>, middle: set<Proposal>, outer: set<Proposal>)
    requires inner <= middle <= outer
    requires inner != {} && Best(inner) == Best(outer)
    ensures Best(middle) == Best(outer)
  {
    var m := Best(middle).value;
    var o := Best(outer).value;
    assert o in middle && m in outer;
    assert Le(o, m) && Le(m, o);
  }
}
