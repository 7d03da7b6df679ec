/** Bytes and the bits inside them, least significant first. */
module Octets {

  type byte = bv8

  /** The byte whose only set bit is bit `k`: what `1 << k` is in eight bits. */
  function Mask(k: nat): byte
    requires k < 8
  {
    match k
    case 0 => 0x01
    case 1 => 0x02
    case 2 => 0x04
    case 3 => 0x08
    case 4 => 0x10
    case 5 => 0x20
    case 6 => 0x40
    case _ => 0x80
  }

  predicate BitOf(b: byte, k: nat)
    requires k < 8
  {
    b & Mask(k) != 0
  }

  /** `b | (bit << k)` */
  function WithBit(b: byte, k: nat, bit: bool): byte
    requires k < 8
  {
    if bit then b | Mask(k) else b
  }

  lemma WithBitReads(b: byte, k: nat, bit: bool, j: nat)
    requires k < 8 && j < 8
    ensures BitOf(WithBit(b, k, bit), j) == (BitOf(b, j) || (j == k && bit))
  {
  }

  /** Bit `i` of a byte string read least-significant-bit first. */
  predicate BitAt(bytes: seq<byte>, i: nat)
    requires i < 8 * |bytes|
  {
    BitOf(bytes[i / 8], i % 8)
  }

  /** The first `n` bits of a byte string. */
  function UnpackBits(bytes: seq<byte>, n: nat): (bits: seq<bool>)
    requires n <= 8 * |bytes|
    ensures |bits| == n
    ensures forall i :: 0 <= i < n ==> bits[i] == BitAt(bytes, i)
  {
    seq(n, i requires 0 <= i < n => BitAt(bytes, i))
  }

  // The number a byte stands for

  /** The number formed by the bits of `b` from bit `k` up. */
  function NumberFrom(b: byte, k: nat): nat
    requires k <= 8
    decreases 8 - k
  {
    if k == 8 then 0 else (if BitOf(b, k) then 1 else 0) + 2 * NumberFrom(b, k + 1)
  }

  function Value(b: byte): nat {
    NumberFrom(b, 0)
  }

  /** The byte whose bits from bit `k` up are the low bits of `n`. */
  function OctetFrom(n: nat, k: nat): byte
    requires k <= 8
    decreases 8 - k
  {
    if k == 8 then 0 else WithBit(OctetFrom(n / 2, k + 1), k, n % 2 == 1)
  }

  /** The low eight bits of a number. */
  function Octet(n: nat): byte {
    OctetFrom(n, 0)
  }

  function Power2(e: nat): (p: nat)
    ensures p > 0
  {
    if e == 0 then 1 else 2 * Power2(e - 1)
  }

  lemma {:induction false} NumberAboveUnchanged(b: byte, k: nat, bit: bool, from: nat)
    requires k < from <= 8
    ensures NumberFrom(WithBit(b, k, bit), from) == NumberFrom(b, from)
    decreases 8 - from
  {
    if from < 8 {
      WithBitReads(b, k, bit, from);
      NumberAboveUnchanged(b, k, bit, from + 1);
    }
  }

  lemma {:induction false} LowBitsClear(n: nat, k: nat, j: nat)
    requires j < k <= 8
    ensures !BitOf(OctetFrom(n, k), j)
    decreases 8 - k
  {
    if k < 8 {
      LowBitsClear(n / 2, k + 1, j);
      WithBitReads(OctetFrom(n / 2, k + 1), k, n % 2 == 1, j);
    }
  }

  lemma {:induction false} NumberOfOctet(n: nat, k: nat)
    requires k <= 8 && n < Power2(8 - k)
    ensures NumberFrom(OctetFrom(n, k), k) == n
    decreases 8 - k
  {
    hide BitOf, WithBit;
    if k < 8 {
      var upper := OctetFrom(n / 2, k + 1);
      NumberOfOctet(n / 2, k + 1);
      NumberAboveUnchanged(upper, k, n % 2 == 1, k + 1);
      LowBitsClear(n / 2, k + 1, k);
      WithBitReads(upper, k, n % 2 == 1, k);
    }
  }

  lemma ValueOfOctet(n: nat)
    requires n < 256
    ensures Value(Octet(n)) == n
  {
    assert Power2(4) == 16;
    assert Power2(8) == 256;
    NumberOfOctet(n, 0);
  }

  // ---------------------------------------------------------------------------
  // Bits and numbers
  // ---------------------------------------------------------------------------

  /** A byte is the sum of the powers of two of its bits. */
  lemma ByteIsSum(b: byte)
    ensures b as nat == (if BitOf(b, 0) then 1 else 0) + (if BitOf(b, 1) then 2 else 0) + (if BitOf(b, 2) then 4 else 0)
                      + (if BitOf(b, 3) then 8 else 0) + (if BitOf(b, 4) then 16 else 0) + (if BitOf(b, 5) then 32 else 0)
                      + (if BitOf(b, 6) then 64 else 0) + (if BitOf(b, 7) then 128 else 0)
  {
  }

  lemma PowersOfTwo()
    ensures Power2(0) == 1 && Power2(1) == 2 && Power2(2) == 4 && Power2(3) == 8
    ensures Power2(4) == 16 && Power2(5) == 32 && Power2(6) == 64 && Power2(7) == 128
  {
    assert Power2(2) == 4;
    assert Power2(4) == 16;
    assert Power2(6) == 64;
  }

  /** The eight digits of a sum of powers of two. */
  lemma Digits(n: nat, b0: nat, b1: nat, b2: nat, b3: nat, b4: nat, b5: nat, b6: nat, b7: nat)
    requires b0 <= 1 && b1 <= 1 && b2 <= 1 && b3 <= 1 && b4 <= 1 && b5 <= 1 && b6 <= 1 && b7 <= 1
    requires n == b0 + 2 * b1 + 4 * b2 + 8 * b3 + 16 * b4 + 32 * b5 + 64 * b6 + 128 * b7
    ensures n % 2 == b0 && (n / 2) % 2 == b1 && (n / 4) % 2 == b2 && (n / 8) % 2 == b3
    ensures (n / 16) % 2 == b4 && (n / 32) % 2 == b5 && (n / 64) % 2 == b6 && (n / 128) % 2 == b7
  {
    assert n / 2 == b1 + 2 * b2 + 4 * b3 + 8 * b4 + 16 * b5 + 32 * b6 + 64 * b7;
    assert n / 4 == b2 + 2 * b3 + 4 * b4 + 8 * b5 + 16 * b6 + 32 * b7;
    assert n / 8 == b3 + 2 * b4 + 4 * b5 + 8 * b6 + 16 * b7;
    assert n / 16 == b4 + 2 * b5 + 4 * b6 + 8 * b7;
    assert n / 32 == b5 + 2 * b6 + 4 * b7;
    assert n / 64 == b6 + 2 * b7;
    assert n / 128 == b7;
  }

  function Weight(b: byte, k: nat): nat
    requires k < 8
  {
    if BitOf(b, k) then 1 else 0
  }

  /** `p` where bit `k` is set, without a case distinction. */
  lemma WeightIs(b: byte, k: nat, p: nat)
    requires k < 8
    ensures (if BitOf(b, k) then p else 0) == p * Weight(b, k)
  {
    hide BitOf;
  }

  lemma ByteIsWeighed(b: byte)
    ensures b as nat == Weight(b, 0) + 2 * Weight(b, 1) + 4 * Weight(b, 2) + 8 * Weight(b, 3)
                      + 16 * Weight(b, 4) + 32 * Weight(b, 5) + 64 * Weight(b, 6) + 128 * Weight(b, 7)
  {
    hide BitOf, Weight;
    ByteIsSum(b);
    WeightIs(b, 0, 1);
    WeightIs(b, 1, 2);
    WeightIs(b, 2, 4);
    WeightIs(b, 3, 8);
    WeightIs(b, 4, 16);
    WeightIs(b, 5, 32);
    WeightIs(b, 6, 64);
    WeightIs(b, 7, 128);
  }

  lemma WeightBit(b: byte, k: nat)
    requires k < 8
    ensures Weight(b, k) <= 1 && (BitOf(b, k) <==> Weight(b, k) == 1)
  {
    hide BitOf;
  }

  lemma WeightsAreDigits(b: byte)
    ensures var n := b as nat;
            && n % 2 == Weight(b, 0) && (n / 2) % 2 == Weight(b, 1) && (n / 4) % 2 == Weight(b, 2) && (n / 8) % 2 == Weight(b, 3)
            && (n / 16) % 2 == Weight(b, 4) && (n / 32) % 2 == Weight(b, 5) && (n / 64) % 2 == Weight(b, 6)
            && (n / 128) % 2 == Weight(b, 7)
  {
    hide BitOf;
    ByteIsWeighed(b);
    Digits(b as nat, Weight(b, 0), Weight(b, 1), Weight(b, 2), Weight(b, 3), Weight(b, 4), Weight(b, 5), Weight(b, 6), Weight(b, 7));
  }

  lemma BitsAreDigits(b: byte)
    ensures var n := b as nat;
            && (BitOf(b, 0) <==> n % 2 == 1) && (BitOf(b, 1) <==> (n / 2) % 2 == 1)
            && (BitOf(b, 2) <==> (n / 4) % 2 == 1) && (BitOf(b, 3) <==> (n / 8) % 2 == 1)
            && (BitOf(b, 4) <==> (n / 16) % 2 == 1) && (BitOf(b, 5) <==> (n / 32) % 2 == 1)
            && (BitOf(b, 6) <==> (n / 64) % 2 == 1) && (BitOf(b, 7) <==> (n / 128) % 2 == 1)
  {
    hide BitOf, Weight;
    WeightsAreDigits(b);
    WeightBit(b, 0);
    WeightBit(b, 1);
    WeightBit(b, 2);
    WeightBit(b, 3);
    WeightBit(b, 4);
    WeightBit(b, 5);
    WeightBit(b, 6);
    WeightBit(b, 7);
  }

  function Quotient(n: nat, p: nat): nat
    requires p > 0
  {
    n / p
  }

  lemma QuotientsByPowers(n: nat)
    ensures Quotient(n, 1) == n && Quotient(n, 2) == n / 2 && Quotient(n, 4) == n / 4 && Quotient(n, 8) == n / 8
    ensures Quotient(n, 16) == n / 16 && Quotient(n, 32) == n / 32 && Quotient(n, 64) == n / 64 && Quotient(n, 128) == n / 128
  {
  }

  /** Bit `k` is the digit of weight `2^k` of the number the byte is. */
  lemma BitIsDigit(b: byte, k: nat)
    requires k < 8
    ensures BitOf(b, k) <==> Quotient(b as nat, Power2(k)) % 2 == 1
  {
    hide BitOf, Power2, Quotient;
    BitsAreDigits(b);
    PowersOfTwo();
    QuotientsByPowers(b as nat);
    if k == 0 {} else if k == 1 {} else if k == 2 {} else if k == 3 {} else if k == 4 {} else if k == 5 {} else if k == 6 {} else {}
  }

  lemma ValueUnfolds(b: byte)
    ensures Value(b) == (if BitOf(b, 0) then 1 else 0) + 2 * NumberFrom(b, 1)
    ensures NumberFrom(b, 1) == (if BitOf(b, 1) then 1 else 0) + 2 * NumberFrom(b, 2)
    ensures NumberFrom(b, 2) == (if BitOf(b, 2) then 1 else 0) + 2 * NumberFrom(b, 3)
    ensures NumberFrom(b, 3) == (if BitOf(b, 3) then 1 else 0) + 2 * NumberFrom(b, 4)
    ensures NumberFrom(b, 4) == (if BitOf(b, 4) then 1 else 0) + 2 * NumberFrom(b, 5)
    ensures NumberFrom(b, 5) == (if BitOf(b, 5) then 1 else 0) + 2 * NumberFrom(b, 6)
    ensures NumberFrom(b, 6) == (if BitOf(b, 6) then 1 else 0) + 2 * NumberFrom(b, 7)
    ensures NumberFrom(b, 7) == if BitOf(b, 7) then 1 else 0
  {
  }

  lemma ValueIsNumber(b: byte)
    ensures Value(b) == b as nat
  {
    hide BitOf, Value, NumberFrom;
    ValueUnfolds(b);
    ByteIsSum(b);
  }

  /** The low eight bits of a number, as a number. */
  lemma OctetIsRemainder(n: nat)
    requires n < 256
    ensures Octet(n) as nat == n
  {
    ValueOfOctet(n);
    ValueIsNumber(Octet(n));
  }

  /** The sum of `2^j` over the set bits among `bits[at]`, ..., `bits[at + k - 1]`. */
  function SumOfBits(bits: seq<bool>, at: nat, k: nat): nat {
    if k == 0 then 0
    else SumOfBits(bits, at, k - 1) + (if at + k - 1 < |bits| && bits[at + k - 1] then Power2(k - 1) else 0)
  }

  lemma SumUnfolds(bits: seq<bool>, at: nat, k: nat)
    requires k < 8
    ensures SumOfBits(bits, at, 0) == 0
    ensures SumOfBits(bits, at, k + 1) == SumOfBits(bits, at, k) + (if at + k < |bits| && bits[at + k] then Power2(k) else 0)
  {
  }

  lemma SumNext(b: byte, bits: seq<bool>, at: nat, k: nat, p: nat)
    requires k < 8 && BitOf(b, k) == (at + k < |bits| && bits[at + k]) && Power2(k) == p
    ensures SumOfBits(bits, at, k + 1) == SumOfBits(bits, at, k) + p * Weight(b, k)
  {
    hide BitOf, Power2, SumOfBits, Weight;
    SumUnfolds(bits, at, k);
    WeightIs(b, k, p);
  }

  /** A byte that holds eight bits, the first one least significant, is the sum of their powers. */
  lemma ByteOfBits(b: byte, bits: seq<bool>, at: nat)
    requires forall k :: 0 <= k < 8 ==> BitOf(b, k) == (at + k < |bits| && bits[at + k])
    ensures b as nat == SumOfBits(bits, at, 8)
  {
    hide BitOf, Power2, SumOfBits, Weight;
    ByteIsWeighed(b);
    PowersOfTwo();
    SumUnfolds(bits, at, 0);
    SumNext(b, bits, at, 0, 1);
    SumNext(b, bits, at, 1, 2);
    SumNext(b, bits, at, 2, 4);
    SumNext(b, bits, at, 3, 8);
    SumNext(b, bits, at, 4, 16);
    SumNext(b, bits, at, 5, 32);
    SumNext(b, bits, at, 6, 64);
    SumNext(b, bits, at, 7, 128);
  }

  /** Bits `k` and up of `b`, mirrored into bits `7 - k` and down. */
  function MirrorFrom(b: byte, k: nat): byte
    requires k <= 8
    decreases 8 - k
  {
    if k == 8 then 0 else WithBit(MirrorFrom(b, k + 1), 7 - k, BitOf(b, k))
  }

  /** The byte with its eight bits in the opposite order. */
  function Reverse(b: byte): byte {
    MirrorFrom(b, 0)
  }

  lemma {:induction false} MirrorReads(b: byte, k: nat, j: nat)
    requires k <= 8 && j < 8
    ensures BitOf(MirrorFrom(b, k), j) == (7 - j >= k && BitOf(b, 7 - j))
    decreases 8 - k
  {
    if k < 8 {
      MirrorReads(b, k + 1, j);
      WithBitReads(MirrorFrom(b, k + 1), 7 - k, BitOf(b, k), j);
    }
  }

  lemma ReverseMirrors(b: byte, j: nat)
    requires j < 8
    ensures BitOf(Reverse(b), j) == BitOf(b, 7 - j)
  {
    MirrorReads(b, 0, j);
  }

  lemma SameBits(a: byte, b: byte)
    requires BitOf(a, 0) == BitOf(b, 0) && BitOf(a, 1) == BitOf(b, 1) && BitOf(a, 2) == BitOf(b, 2)
    requires BitOf(a, 3) == BitOf(b, 3) && BitOf(a, 4) == BitOf(b, 4) && BitOf(a, 5) == BitOf(b, 5)
    requires BitOf(a, 6) == BitOf(b, 6) && BitOf(a, 7) == BitOf(b, 7)
    ensures a == b
  {
  }

  lemma ReverseTwice(b: byte)
    ensures Reverse(Reverse(b)) == b
  {
    forall j: nat | j < 8
      ensures BitOf(Reverse(Reverse(b)), j) == BitOf(b, j)
    {
      ReverseMirrors(Reverse(b), j);
      ReverseMirrors(b, 7 - j);
    }
    SameBits(Reverse(Reverse(b)), b);
  }
}
