/** What the hash arithmetic computes, in terms of numbers and their binary digits. */
module HashMeaning {
  import opened Arithmetic
  import opened Bytes
  import opened ChainHash

  /** Binary digit `i`. */
  function Bit(a: nat, i: nat): nat {
    a / PowerOfTwo(i) % 2
  }

  lemma {:induction false} HalveThenDivide(a: nat, p: nat)
    requires p > 0
    ensures a / 2 / p == a / (2 * p)
  {
    var q, r := a / 2, a % 2;
    var q', r' := q / p, q % p;
    assert q == q' * p + r';
    assert a == q' * (2 * p) + (2 * r' + r) by {
      assert a == 2 * (q' * p + r') + r;
      assert 2 * (q' * p) == q' * (2 * p);
    }
    Quotient(a, 2 * p, q', 2 * r' + r);
  }

  /** Shifting right is dividing by a power of two. */
  lemma {:induction false} ShiftIsDivision(a: nat, k: nat)
    ensures ShiftRight(a, k) == a / PowerOfTwo(k)
  {
    if k == 0 {
    } else {
      ShiftIsDivision(a / 2, k - 1);
      HalveThenDivide(a, PowerOfTwo(k - 1));
    }
  }

  lemma {:induction false} BitOfHalf(a: nat, i: nat)
    requires i > 0
    ensures Bit(a, i) == Bit(a / 2, i - 1)
  {
    HalveThenDivide(a, PowerOfTwo(i - 1));
  }

  lemma {:induction false} SumOfBits(a: nat, b: nat)
    ensures (a + b) % 2 == if a % 2 == b % 2 then 0 else 1
  {
  }

  /** A digit of the exclusive or is one exactly where the digits differ. */
  lemma {:induction false} XorDiffers(a: nat, b: nat, i: nat)
    ensures Bit(Xor(a, b), i) == if Bit(a, i) == Bit(b, i) then 0 else 1
  {
    XorBits(a, b);
    hide Xor;
    if i == 0 {
      SumOfBits(a, b);
    } else {
      hide Bit;
      BitOfHalf(a, i);
      BitOfHalf(b, i);
      BitOfHalf(Xor(a, b), i);
      XorDiffers(a / 2, b / 2, i - 1);
    }
  }

  lemma {:induction false} ShiftsOfMix()
    ensures PowerOfTwo(30) == 0x4000_0000 && PowerOfTwo(27) == 0x800_0000 && PowerOfTwo(31) == 0x8000_0000
  {
    assert PowerOfTwo(3) == 8 && PowerOfTwo(8) == 256;
    PowersMultiply(8, 8);
    PowersMultiply(16, 8);
    PowersMultiply(24, 3);
    PowersMultiply(27, 3);
  }

  /** The finalizer, with its shifts and multipliers written out. */
  lemma {:induction false} MixMeaning(x: Word, a: nat, b: nat, c: nat, d: nat)
    requires a == Xor(x, x / 0x4000_0000) && b == a * 0xbf58_476d_1ce4_e5b9 % 0x1_0000_0000_0000_0000
    requires c == Xor(b, b / 0x800_0000) && d == c * 0x94d0_49bb_1331_11eb % 0x1_0000_0000_0000_0000
    ensures Mix(x) == Xor(d, d / 0x8000_0000)
  {
    hide Xor, ShiftRight;
    ShiftsOfMix();
    ShiftIsDivision(x, 30);
    ShiftIsDivision(b, 27);
    ShiftIsDivision(d, 31);
    assert a == FoldWord(x, 30) && c == FoldWord(b, 27);
  }

  /** The hash of no bytes is the accumulator; each further byte is folded in and the result
      multiplied by the prime, modulo 2^64. */
  lemma {:induction false} FnvMeaning(acc: Word, bytes: seq<Byte>, b: Byte)
    ensures Fnv(acc, []) == acc
    ensures Fnv(acc, bytes + [b]) == Xor(Fnv(acc, bytes), b) * 0x100_0000_01b3 % 0x1_0000_0000_0000_0000
  {
    hide Xor;
    assert (bytes + [b])[..|bytes|] == bytes;
  }

  /** The signed value stored is congruent to the one given, modulo 2^64. */
  lemma {:induction false} ToWordMeaning(v: Signed)
    ensures (ToWord(v) - v) % 0x1_0000_0000_0000_0000 == 0
  {
  }

  /** Where each byte of a command's encoding comes from: a tag, then client, sequence number
      and key, then for a write its value, every field lowest byte first. */
  lemma {:induction false} EncodeLayout(c: Command, i: nat)
    ensures var e := Encode(c);
            && |e| == (if c.Put? then 25 else 17) && e[0] == (if c.Put? then 0 else 1)
            && PowerOf256(i) > 0
            && (i < 4 ==> e[1 + i] == c.client / PowerOf256(i) % 256)
            && (i < 8 ==> e[5 + i] == c.seqNo / PowerOf256(i) % 256)
            && (i < 4 ==> e[13 + i] == c.key / PowerOf256(i) % 256)
            && (c.Put? && i < 8 ==> e[17 + i] == ToWord(c.value) / PowerOf256(i) % 256)
  {
    EncodeFields(c);
    hide Encode, LittleEndian, PowerOf256;
    PowerIsPositive(i);
    var e := Encode(c);
    if i < 4 {
      ByteAt(c.client, 4, i);
      ByteAt(c.key, 4, i);
      assert e[1..5][i] == e[1 + i] && e[13..17][i] == e[13 + i];
    }
    if i < 8 {
      ByteAt(c.seqNo, 8, i);
      assert e[5..13][i] == e[5 + i];
      if c.Put? {
        ByteAt(ToWord(c.value), 8, i);
        assert e[17..][i] == e[17 + i];
      }
    }
  }

  /** The digest of a command is the finalized hash of its bytes from the offset basis; the
      link after a head hashes the head's eight bytes first. */
  lemma {:induction false} DigestMeaning(h: Word, c: Command)
    ensures CommandDigest(c) == Mix(Fnv(0xcbf2_9ce4_8422_2325, Encode(c)))
    ensures Extend(h, c) == Mix(Fnv(0xcbf2_9ce4_8422_2325, LittleEndian(h, 8) + Encode(c)))
  {
    hide Mix, Fnv, Encode, LittleEndian;
    ExtendMeaning(h, h, c);
  }
}
