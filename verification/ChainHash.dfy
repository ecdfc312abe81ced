/** The chain's hash arithmetic on 64-bit words, and the byte encoding of a command. Words
    are numbers below 2^64, so wrap-around is written out. */
module ChainHash {
  import opened Proposals
  import opened Arithmetic
  import opened Bytes

  const TWO32: nat := 0x1_0000_0000
  const TWO64: nat := 0x1_0000_0000_0000_0000

  type Word = x: nat | x < TWO64
  type Half = x: nat | x < TWO32
  type Signed = x: int | -0x8000_0000_0000_0000 <= x < 0x8000_0000_0000_0000

  const GENESIS: Word := 0xcbf2_9ce4_8422_2325

  datatype Command =
    | Put(client: Half, seqNo: Word, key: Half, value: Signed)
    | Get(client: Half, seqNo: Word, key: Half)

  // ------------------------------------------------------------------------- exclusive or

  /** Bit by bit, lowest first. */
  function Xor(a: nat, b: nat): nat
    decreases a + b
  {
    if a == 0 then b else if b == 0 then a
    else (a + b) % 2 + 2 * Xor(a / 2, b / 2)
  }

  lemma {:induction false} XorUnfolds(a: nat, b: nat)
    ensures Xor(a, b) == (a + b) % 2 + 2 * Xor(a / 2, b / 2)
  {
    if a == 0 {
      assert Xor(0, b / 2) == b / 2;
    } else if b == 0 {
      assert Xor(a / 2, 0) == a / 2;
    }
  }

  lemma {:induction false} Halves(x: nat, r: nat, y: nat)
    requires x == r + 2 * y && r < 2
    ensures x % 2 == r && x / 2 == y
  {
  }

  lemma {:induction false} XorBits(a: nat, b: nat)
    ensures Xor(a, b) == (a + b) % 2 + 2 * Xor(a / 2, b / 2)
    ensures Xor(a, b) % 2 == (a + b) % 2 && Xor(a, b) / 2 == Xor(a / 2, b / 2)
  {
    hide *;
    XorUnfolds(a, b);
    Halves(Xor(a, b), (a + b) % 2, Xor(a / 2, b / 2));
  }

  lemma {:induction false} XorSelf(a: nat)
    ensures Xor(a, a) == 0
  {
    if a == 0 {
    } else {
      XorSelf(a / 2);
    }
  }

  lemma {:induction false} XorCommutes(a: nat, b: nat)
    ensures Xor(a, b) == Xor(b, a)
    decreases a + b
  {
    if a == 0 || b == 0 {
    } else {
      XorCommutes(a / 2, b / 2);
    }
  }

  lemma {:induction false} Parity(u: nat, v: nat, a: nat, b: nat, c: nat)
    requires u % 2 == (a + b) % 2 && v % 2 == (b + c) % 2
    ensures (u + c) % 2 == (a + v) % 2
  {
  }

  lemma {:induction false} XorAssociatesBits(a: nat, b: nat, c: nat)
    requires Xor(Xor(a / 2, b / 2), c / 2) == Xor(a / 2, Xor(b / 2, c / 2))
    ensures Xor(Xor(a, b), c) == Xor(a, Xor(b, c))
  {
    hide Xor;
    XorBits(a, b);
    XorBits(b, c);
    XorBits(Xor(a, b), c);
    XorBits(a, Xor(b, c));
    Parity(Xor(a, b), Xor(b, c), a, b, c);
  }

  lemma {:induction false} XorAssociates(a: nat, b: nat, c: nat)
    ensures Xor(Xor(a, b), c) == Xor(a, Xor(b, c))
    decreases a + b + c
  {
    if a == 0 || b == 0 || c == 0 {
    } else {
      XorAssociates(a / 2, b / 2, c / 2);
      XorAssociatesBits(a, b, c);
    }
  }

  /** What was folded in twice is gone. */
  lemma {:induction false} XorCancels(a: nat, b: nat)
    ensures Xor(Xor(a, b), b) == a
  {
    XorAssociates(a, b, b);
    XorSelf(b);
  }

  lemma {:induction false} XorBelow(a: nat, b: nat, k: nat)
    requires a < PowerOfTwo(k) && b < PowerOfTwo(k)
    ensures Xor(a, b) < PowerOfTwo(k)
  {
    if k == 0 {
    } else {
      XorBits(a, b);
      XorBelow(a / 2, b / 2, k - 1);
    }
  }

  /** Shifting right by `k` bits. */
  function ShiftRight(a: nat, k: nat): nat {
    if k == 0 then a else ShiftRight(a / 2, k - 1)
  }

  lemma {:induction false} ShiftOfXor(a: nat, b: nat, k: nat)
    ensures ShiftRight(Xor(a, b), k) == Xor(ShiftRight(a, k), ShiftRight(b, k))
  {
    if k == 0 {
    } else {
      XorBits(a, b);
      ShiftOfXor(a / 2, b / 2, k - 1);
    }
  }

  lemma {:induction false} ShiftTwice(a: nat, j: nat, k: nat)
    ensures ShiftRight(ShiftRight(a, j), k) == ShiftRight(a, j + k)
    decreases j
  {
    if j == 0 {
    } else {
      ShiftTwice(a / 2, j - 1, k);
    }
  }

  lemma {:induction false} ShiftedOut(a: nat, k: nat)
    requires a < PowerOfTwo(k)
    ensures ShiftRight(a, k) == 0
  {
    if k == 0 {
    } else {
      ShiftedOut(a / 2, k - 1);
    }
  }

  // ------------------------------------------------------------- reversible steps on a word

  function Fold(x: nat, k: nat): nat {
    Xor(x, ShiftRight(x, k))
  }

  lemma {:induction false} XorZero(a: nat)
    ensures Xor(a, 0) == a
  {
  }

  function Unfold(y: nat, k: nat): nat {
    Xor(Xor(y, ShiftRight(y, k)), ShiftRight(y, 2 * k))
  }

  /** Folding a word with its own upper part is undone by two more folds, and undoes them,
      when the third shift empties it. */
  lemma {:induction false} FoldInverts(x: nat, k: nat)
    requires ShiftRight(x, 3 * k) == 0
    ensures Unfold(Fold(x, k), k) == x && Fold(Unfold(x, k), k) == x
  {
    hide Xor, ShiftRight;
    var b, c := ShiftRight(x, k), ShiftRight(x, 2 * k);
    ShiftTwice(x, k, k);
    ShiftTwice(x, k, 2 * k);
    ShiftTwice(x, 2 * k, k);
    XorZero(c);
    FoldThenUnfold(x, b, c, k);
    UnfoldThenFold(x, b, c, k);
  }

  lemma {:induction false} FoldThenUnfold(x: nat, b: nat, c: nat, k: nat)
    requires b == ShiftRight(x, k) && c == ShiftRight(b, k) == ShiftRight(x, 2 * k) && ShiftRight(b, 2 * k) == 0
    ensures Unfold(Fold(x, k), k) == x
  {
    hide Xor, ShiftRight;
    var y := Xor(x, b);
    ShiftOfXor(x, b, k);
    ShiftOfXor(x, b, 2 * k);
    assert ShiftRight(y, k) == Xor(b, c) && ShiftRight(y, 2 * k) == Xor(c, 0);
    XorZero(c);
    XorAssociates(x, b, Xor(b, c));
    XorAssociates(b, b, c);
    XorSelf(b);
    XorZero(c);
    XorCommutes(0, c);
    assert Xor(y, Xor(b, c)) == Xor(x, c);
    XorCancels(x, c);
  }

  lemma {:induction false} UnfoldThenFold(x: nat, b: nat, c: nat, k: nat)
    requires b == ShiftRight(x, k) && c == ShiftRight(b, k) == ShiftRight(x, 2 * k) && ShiftRight(c, k) == 0
    ensures Fold(Unfold(x, k), k) == x
  {
    hide Xor, ShiftRight;
    var y := Xor(Xor(x, b), c);
    ShiftOfXor(Xor(x, b), c, k);
    ShiftOfXor(x, b, k);
    XorZero(Xor(b, c));
    assert ShiftRight(y, k) == Xor(b, c);
    XorAssociates(x, b, c);
    XorCancels(x, Xor(b, c));
  }

  function WrappingMul(x: Word, c: nat): Word {
    (x * c) % TWO64
  }

  lemma {:induction false} Remainder(a: int, q: int, r: nat)
    requires a == q * TWO64 + r && r < TWO64
    ensures a % TWO64 == r
  {
  }

  /** Multiplying by a constant is undone by multiplying by its inverse modulo 2^64. */
  lemma {:induction false} MulInverts(x: Word, c: nat, d: nat)
    requires c * d % TWO64 == 1
    ensures WrappingMul(WrappingMul(x, c), d) == x
  {
    var q, k := x * c / TWO64, c * d / TWO64;
    var lo := x * c % TWO64;
    assert x * c == q * TWO64 + lo && c * d == k * TWO64 + 1;
    assert lo * d == x * (c * d) - q * TWO64 * d by {
      assert lo * d == (x * c - q * TWO64) * d;
      assert x * c * d == x * (c * d);
    }
    assert x * (c * d) == x * (k * TWO64 + 1);
    assert x * (k * TWO64 + 1) == x * k * TWO64 + x;
    assert lo * d == (x * k - q * d) * TWO64 + x;
    Remainder(lo * d, x * k - q * d, x);
  }

  lemma {:induction false} WordIs64Bits()
    ensures PowerOfTwo(64) == TWO64
  {
    assert PowerOfTwo(8) == 256;
    PowersMultiply(8, 8);
    PowersMultiply(16, 16);
    PowersMultiply(32, 32);
  }

  lemma {:induction false} ShiftShrinks(a: nat, k: nat)
    ensures ShiftRight(a, k) <= a
  {
    if k == 0 {
    } else {
      ShiftShrinks(a / 2, k - 1);
    }
  }

  lemma {:induction false} WordShiftsOut(x: Word, k: nat)
    requires k >= 64
    ensures ShiftRight(x, k) == 0
  {
    WordIs64Bits();
    ShiftedOut(x, 64);
    ShiftTwice(x, 64, k - 64);
    ShiftShrinks(0, k - 64);
  }

  lemma {:induction false} XorOfWords(a: Word, b: Word)
    ensures Xor(a, b) < TWO64
  {
    WordIs64Bits();
    XorBelow(a, b, 64);
  }

  lemma {:induction false} FoldsAreWords(x: Word, k: nat)
    ensures Fold(x, k) < TWO64 && Unfold(x, k) < TWO64
  {
    hide Xor, ShiftRight;
    ShiftShrinks(x, k);
    ShiftShrinks(x, 2 * k);
    XorOfWords(x, ShiftRight(x, k));
    XorOfWords(Xor(x, ShiftRight(x, k)), ShiftRight(x, 2 * k));
  }

  // ---------------------------------------------------------------------------- finalizer

  const MIX_FIRST: Word := 0xbf58_476d_1ce4_e5b9
  const MIX_FIRST_INVERSE: Word := 0x96de_1b17_3f11_9089
  const MIX_SECOND: Word := 0x94d0_49bb_1331_11eb
  const MIX_SECOND_INVERSE: Word := 0x3196_42b2_d24d_8ec3

  function FoldWord(x: Word, k: nat): Word {
    FoldsAreWords(x, k);
    Fold(x, k)
  }

  function UnfoldWord(x: Word, k: nat): Word {
    FoldsAreWords(x, k);
    Unfold(x, k)
  }

  function Mix(x: Word): Word {
    FoldWord(WrappingMul(FoldWord(WrappingMul(FoldWord(x, 30), MIX_FIRST), 27), MIX_SECOND), 31)
  }

  /** The finalizer run backwards. */
  function Unmix(m: Word): Word {
    UnfoldWord(WrappingMul(UnfoldWord(WrappingMul(UnfoldWord(m, 31), MIX_SECOND_INVERSE), 27), MIX_FIRST_INVERSE), 30)
  }

  lemma {:induction false} WordFoldInverts(x: Word, k: nat)
    requires 3 * k >= 64
    ensures UnfoldWord(FoldWord(x, k), k) == x == FoldWord(UnfoldWord(x, k), k)
  {
    WordShiftsOut(x, 3 * k);
    FoldInverts(x, k);
  }

  lemma {:induction false} UnmixMix(x: Word)
    ensures Unmix(Mix(x)) == x
  {
    hide FoldWord, UnfoldWord, WrappingMul;
    var a := FoldWord(x, 30);
    var b := WrappingMul(a, MIX_FIRST);
    var c := FoldWord(b, 27);
    var d := WrappingMul(c, MIX_SECOND);
    WordFoldInverts(d, 31);
    MulInverts(c, MIX_SECOND, MIX_SECOND_INVERSE);
    WordFoldInverts(b, 27);
    MulInverts(a, MIX_FIRST, MIX_FIRST_INVERSE);
    WordFoldInverts(x, 30);
  }

  lemma {:induction false} MixUnmix(m: Word)
    ensures Mix(Unmix(m)) == m
  {
    hide FoldWord, UnfoldWord, WrappingMul;
    var a := UnfoldWord(m, 31);
    var b := WrappingMul(a, MIX_SECOND_INVERSE);
    var c := UnfoldWord(b, 27);
    var d := WrappingMul(c, MIX_FIRST_INVERSE);
    WordFoldInverts(d, 30);
    MulInverts(c, MIX_FIRST_INVERSE, MIX_FIRST);
    WordFoldInverts(b, 27);
    MulInverts(a, MIX_SECOND_INVERSE, MIX_SECOND);
    WordFoldInverts(m, 31);
  }

  /** The finalizer is a permutation of the 64-bit words. */
  lemma {:induction false} MixPermutes(x: Word, x': Word, m: Word)
    ensures Mix(x) == Mix(x') <==> x == x'
    ensures exists y: Word :: Mix(y) == m
  {
    hide Mix, Unmix;
    UnmixMix(x);
    UnmixMix(x');
    MixUnmix(m);
  }

  // ------------------------------------------------------------------------------ FNV-1a

  const FNV_PRIME: Word := 0x0000_0100_0000_01b3
  const FNV_PRIME_INVERSE: Word := 0xce96_5057_aff6_957b

  function Absorb(h: Word, b: Byte): Word {
    XorOfWords(h, b);
    WrappingMul(Xor(h, b), FNV_PRIME)
  }

  function Fnv(acc: Word, bytes: seq<Byte>): Word {
    if bytes == [] then acc else Absorb(Fnv(acc, bytes[..|bytes| - 1]), bytes[|bytes| - 1])
  }

  method Fnv1a(acc: Word, bytes: seq<Byte>) returns (h: Word)
    ensures h == Fnv(acc, bytes)
  {
    hide WrappingMul, Xor;
    h := acc;
    for k := 0 to |bytes|
      invariant h == Fnv(acc, bytes[..k])
    {
      assert bytes[..k + 1][..k] == bytes[..k];
      XorOfWords(h, bytes[k]);
      h := Xor(h, bytes[k]);
      h := WrappingMul(h, FNV_PRIME);
    }
    assert bytes[..|bytes|] == bytes;
  }

  /** What one byte did to the accumulator can be undone. */
  lemma {:induction false} AbsorbInverts(h: Word, b: Byte)
    ensures Xor(WrappingMul(Absorb(h, b), FNV_PRIME_INVERSE), b) == h
  {
    hide WrappingMul, Xor;
    XorOfWords(h, b);
    MulInverts(Xor(h, b), FNV_PRIME, FNV_PRIME_INVERSE);
    XorCancels(h, b);
  }

  /** For fixed bytes, the hash is injective in its accumulator. */
  lemma {:induction false} FnvInjective(acc: Word, acc': Word, bytes: seq<Byte>)
    ensures Fnv(acc, bytes) == Fnv(acc', bytes) <==> acc == acc'
  {
    hide Absorb, WrappingMul, Xor;
    if bytes == [] {
    } else {
      var n := |bytes| - 1;
      FnvInjective(acc, acc', bytes[..n]);
      AbsorbInverts(Fnv(acc, bytes[..n]), bytes[n]);
      AbsorbInverts(Fnv(acc', bytes[..n]), bytes[n]);
    }
  }

  /** Hashing a concatenation is hashing the parts one after the other. */
  lemma {:induction false} FnvComposes(acc: Word, first: seq<Byte>, second: seq<Byte>)
    ensures Fnv(acc, first + second) == Fnv(Fnv(acc, first), second)
    decreases |second|
  {
    hide Absorb;
    var all := first + second;
    if second == [] {
      assert all == first;
    } else {
      var n := |second| - 1;
      assert all[..|all| - 1] == first + second[..n] && all[|all| - 1] == second[n];
      FnvComposes(acc, first, second[..n]);
    }
  }

  // ----------------------------------------------------------------------------- encoding

  /** Two's complement. */
  function ToWord(v: Signed): Word {
    if v < 0 then v + TWO64 else v
  }

  function Encode(c: Command): seq<Byte> {
    match c
    case Put(client, seqNo, key, value) =>
      [0] + LittleEndian(client, 4) + LittleEndian(seqNo, 8) + LittleEndian(key, 4) + LittleEndian(ToWord(value), 8)
    case Get(client, seqNo, key) =>
      [1] + LittleEndian(client, 4) + LittleEndian(seqNo, 8) + LittleEndian(key, 4)
  }

  /** Reading the fields back. */
  function Parse(b: seq<Byte>): Option<Command> {
    if |b| == 25 && b[0] == 0 then
      var value := FromLittleEndian(b[17..]);
      var (client, seqNo, key) := (FromLittleEndian(b[1..5]), FromLittleEndian(b[5..13]), FromLittleEndian(b[13..17]));
      if client < TWO32 && seqNo < TWO64 && key < TWO32 && value < TWO64
      then Some(Put(client, seqNo, key, if value < TWO64 / 2 then value else value - TWO64))
      else None
    else if |b| == 17 && b[0] == 1 then
      var (client, seqNo, key) := (FromLittleEndian(b[1..5]), FromLittleEndian(b[5..13]), FromLittleEndian(b[13..17]));
      if client < TWO32 && seqNo < TWO64 && key < TWO32 then Some(Get(client, seqNo, key)) else None
    else None
  }

  lemma {:induction false} FieldReads(w: nat)
    ensures w < TWO32 ==> FromLittleEndian(LittleEndian(w, 4)) == w
    ensures w < TWO64 ==> FromLittleEndian(LittleEndian(w, 8)) == w
  {
    assert PowerOf256(4) == TWO32;
    assert PowerOf256(8) == TWO64 by { assert PowerOf256(6) == 0x1_0000_0000_0000; }
    if w < TWO32 { LittleEndianReads(w, 4); }
    if w < TWO64 { LittleEndianReads(w, 8); }
  }

  lemma {:induction false} EncodeFields(c: Command)
    ensures var e := Encode(c);
            && |e| == (if c.Put? then 25 else 17) && e[0] == (if c.Put? then 0 else 1)
            && e[1..5] == LittleEndian(c.client, 4) && e[5..13] == LittleEndian(c.seqNo, 8)
            && e[13..17] == LittleEndian(c.key, 4)
            && (c.Put? ==> e[17..] == LittleEndian(ToWord(c.value), 8))
  {
    hide LittleEndian;
  }

  /** The encoding can be read back, so no two commands share one, a write and a read of the
      same fields included. */
  lemma {:induction false} ParseEncode(c: Command)
    ensures Parse(Encode(c)) == Some(c)
  {
    EncodeFields(c);
    hide Encode, LittleEndian, FromLittleEndian;
    FieldReads(c.client);
    FieldReads(c.seqNo);
    FieldReads(c.key);
    if c.Put? {
      FieldReads(ToWord(c.value));
    }
  }

  lemma {:induction false} EncodeInjective(c: Command, d: Command)
    ensures Encode(c) == Encode(d) <==> c == d
  {
    hide Encode, Parse;
    ParseEncode(c);
    ParseEncode(d);
  }

  function CommandDigest(c: Command): Word {
    Mix(Fnv(GENESIS, Encode(c)))
  }

  function Extend(h: Word, c: Command): Word {
    Mix(Fnv(Fnv(GENESIS, LittleEndian(h, 8)), Encode(c)))
  }

  /** One link of the chain is the finalized hash of the old head's bytes followed by the
      command's; and for a fixed command it tells heads apart exactly when their hashes do. */
  lemma {:induction false} ExtendMeaning(h: Word, h': Word, c: Command)
    ensures Extend(h, c) == Mix(Fnv(GENESIS, LittleEndian(h, 8) + Encode(c)))
    ensures Extend(h, c) == Extend(h', c) <==> Fnv(GENESIS, LittleEndian(h, 8)) == Fnv(GENESIS, LittleEndian(h', 8))
  {
    hide Mix, Fnv, Encode, LittleEndian;
    FnvComposes(GENESIS, LittleEndian(h, 8), Encode(c));
    FnvInjective(Fnv(GENESIS, LittleEndian(h, 8)), Fnv(GENESIS, LittleEndian(h', 8)), Encode(c));
    MixPermutes(Fnv(Fnv(GENESIS, LittleEndian(h, 8)), Encode(c)), Fnv(Fnv(GENESIS, LittleEndian(h', 8)), Encode(c)), 0);
  }
}
