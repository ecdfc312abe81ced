/** Majorities of a fixed membership, and the least member of a set of ids. */
module Quorums {

  ghost predicate IsQuorum(n: nat, q: set<nat>) {
    (forall r | r in q :: r < n) && |q| >= n / 2 + 1
  }

  function Below(n: nat): (s: set<nat>)
    ensures forall r: nat :: r in s <==> r < n
    ensures |s| == n
  {
    if n == 0 then {}
    else
      var below := Below(n - 1);
      assert n - 1 !in below;
      below + {n - 1}
  }

  lemma {:induction false} SubsetCardinality(a: set<nat>, b: set<nat>)
    requires a <= b
    ensures |a| <= |b|
  {
    assert |b| == |a| + |b - a| by { assert b == a + (b - a); }
  }

  /** Two majorities of the same membership share a member. */
  lemma {:induction false} Intersect(n: nat, p: set<nat>, q: set<nat>) returns (r: nat)
    requires IsQuorum(n, p) && IsQuorum(n, q)
    ensures r in p && r in q && r < n
  {
    SubsetCardinality(p + q, Below(n));
    assert |p + q| == |p| + |q| - |p * q|;
    assert p * q != {};
    r :| r in p * q;
  }

  /** Of at most two members, a majority is all. */
  lemma {:induction false} SmallQuorumIsAll(n: nat, q: set<nat>, r: nat)
    requires n <= 2 && IsQuorum(n, q) && r < n
    ensures r in q
  {
    if r !in q {
      SubsetCardinality(q, Below(n) - {r});
      assert false;
    }
  }

  ghost predicate Lowest(s: set<nat>, k: nat) {
    k in s && forall j | j in s :: k <= j
  }

  lemma {:induction false} LowestExists(s: set<nat>)
    requires s != {}
    ensures exists k :: Lowest(s, k)
    decreases |s|
  {
    var x :| x in s;
    var rest := s - {x};
    assert forall j :: j in s <==> j in rest || j == x;
    if rest == {} {
      assert Lowest(s, x);
    } else {
      LowestExists(rest);
      var m :| Lowest(rest, m);
      assert Lowest(s, if x <= m then x else m);
    }
  }

  function Minimum(s: set<nat>): (k: nat)
    requires s != {}
    ensures Lowest(s, k) && k in s && forall j | j in s :: k <= j
  {
    LowestExists(s);
    assert exists k :: k in s && forall j | j in s :: k <= j by {
      var k :| Lowest(s, k);
    }
    var k :| k in s && forall j | j in s :: k <= j;
    k
  }
}
