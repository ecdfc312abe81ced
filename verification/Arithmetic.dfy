/** Powers of two, and quotients by hand. */
module Arithmetic {

  function PowerOfTwo(k: nat): (p: nat)
    ensures p > 0
  {
    if k == 0 then 1 else 2 * PowerOfTwo(k - 1)
  }

  lemma {:induction false} PowersMultiply(j: nat, k: nat)
    ensures PowerOfTwo(j + k) == PowerOfTwo(j) * PowerOfTwo(k)
    decreases j
  {
    if j == 0 {
    } else {
      PowersMultiply(j - 1, k);
    }
  }

  lemma {:induction false} Steps(p: nat, q: nat, d: nat)
    requires p < q
    ensures p * d + d <= q * d
  {
    assert q * d == p * d + (q - p) * d;
    assert (q - p) * d == d + (q - p - 1) * d;
  }

  lemma {:induction false} Quotient(a: nat, d: nat, q: nat, r: nat)
    requires d > 0 && a == q * d + r && r < d
    ensures a / d == q && a % d == r
  {
    var q', r' := a / d, a % d;
    assert a == q' * d + r';
    if q' > q {
      Steps(q, q', d);
      assert false;
    } else if q' < q {
      Steps(q', q, d);
      assert false;
    }
  }
}
