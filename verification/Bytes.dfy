/** Words as bytes, lowest first. */
module Bytes {
  import opened Arithmetic

  type Byte = x: nat | x < 256

  /** `w` as `k` bytes, lowest first. */
  function LittleEndian(w: nat, k: nat): (b: seq<Byte>)
    ensures |b| == k
  {
    if k == 0 then [] else [w % 256] + LittleEndian(w / 256, k - 1)
  }

  function FromLittleEndian(b: seq<Byte>): nat {
    if b == [] then 0 else b[0] + 256 * FromLittleEndian(b[1..])
  }

  function PowerOf256(k: nat): nat {
    if k == 0 then 1 else 256 * PowerOf256(k - 1)
  }

  lemma {:induction false} PowerIsPositive(k: nat)
    ensures PowerOf256(k) > 0
  {
    if k == 0 {
    } else {
      PowerIsPositive(k - 1);
    }
  }

  lemma {:induction false} DivideTwice(w: nat, p: nat)
    requires p > 0
    ensures w / 256 / p == w / (256 * p)
  {
    var q, r := w / 256, w % 256;
    var q', r' := q / p, q % p;
    assert q == q' * p + r';
    assert w == q' * (256 * p) + (256 * r' + r) by {
      assert w == 256 * (q' * p + r') + r;
      assert 256 * (q' * p) == q' * (256 * p);
    }
    Quotient(w, 256 * p, q', 256 * r' + r);
  }

  /** Byte `i` is the one worth `256^i`. */
  lemma {:induction false} ByteAt(w: nat, k: nat, i: nat)
    requires i < k
    ensures PowerOf256(i) > 0 && LittleEndian(w, k)[i] == w / PowerOf256(i) % 256
  {
    if i == 0 {
    } else {
      ByteAt(w / 256, k - 1, i - 1);
      PowerIsPositive(i);
      DivideTwice(w, PowerOf256(i - 1));
      assert LittleEndian(w, k)[1..] == LittleEndian(w / 256, k - 1);
    }
  }

  lemma {:induction false} LittleEndianReads(w: nat, k: nat)
    requires w < PowerOf256(k)
    ensures FromLittleEndian(LittleEndian(w, k)) == w
  {
    if k == 0 {
    } else {
      LittleEndianReads(w / 256, k - 1);
      assert LittleEndian(w, k)[1..] == LittleEndian(w / 256, k - 1);
    }
  }

  /** Bytes read as `w` exactly when they are its little-endian form. */
  lemma {:induction false} LittleEndianInverts(w: nat, b: seq<Byte>)
    requires w < PowerOf256(|b|)
    ensures FromLittleEndian(b) == w <==> b == LittleEndian(w, |b|)
  {
    if b == [] {
    } else {
      LittleEndianReads(w, |b|);
      LittleEndianInverts(w / 256, b[1..]);
      var le := LittleEndian(w, |b|);
      assert le[1..] == LittleEndian(w / 256, |b| - 1);
      if FromLittleEndian(b) == w {
        assert b[0] == w % 256 && FromLittleEndian(b[1..]) == w / 256;
        assert b == [b[0]] + b[1..];
      }
    }
  }
}
