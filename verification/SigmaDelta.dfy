/** The second-order sigma-delta modulator that produces every 1-bit stimulus of the
    DSD-to-PCM conformance harness.  Floating-point values are modelled by `real`. */
module SigmaDelta {
  import opened Octets

  /** The loop variables of the modulator: the two integrators and the fed-back symbol. */
  datatype Loop = Loop(first: real, second: real, feedback: real)

  const START := Loop(0.0, 0.0, 0.0)

  function Symbol(bit: bool): real {
    if bit then 1.0 else -1.0
  }

  function Step(m: Loop, level: real): Loop {
    var first := m.first + level - m.feedback;
    var second := m.second + first - m.feedback;
    Loop(first, second, Symbol(second >= 0.0))
  }

  /** The loop variables after all of `levels`. */
  function Run(levels: seq<real>): Loop {
    if levels == [] then START
    else Step(Run(levels[..|levels| - 1]), levels[|levels| - 1])
  }

  /** The bit decided for each level, in order. */
  function Bits(levels: seq<real>): (bits: seq<bool>)
    ensures |bits| == |levels|
  {
    if levels == [] then []
    else Bits(levels[..|levels| - 1]) + [Run(levels).second >= 0.0]
  }

  function Sum(values: seq<real>): real {
    if values == [] then 0.0 else Sum(values[..|values| - 1]) + values[|values| - 1]
  }

  /** The sum of the +1/-1 symbols a bit stream stands for. */
  function SymbolSum(bits: seq<bool>): real {
    if bits == [] then 0.0 else SymbolSum(bits[..|bits| - 1]) + Symbol(bits[|bits| - 1])
  }

  function Mean(bits: seq<bool>): real
    requires bits != []
  {
    SymbolSum(bits) / |bits| as real
  }

  function Constant(level: real, n: nat): (levels: seq<real>)
    ensures |levels| == n
  {
    seq(n, _ => level)
  }

  function Abs(x: real): real {
    if x < 0.0 then -x else x
  }

  lemma {:induction false} BitDecided(levels: seq<real>, i: nat)
    requires i < |levels|
    ensures Bits(levels)[i] == (Run(levels[..i + 1]).second >= 0.0)
  {
    var before := levels[..|levels| - 1];
    if i < |before| {
      BitDecided(before, i);
      assert before[..i + 1] == levels[..i + 1];
    } else {
      assert levels[..i + 1] == levels;
    }
  }

  /** `out` holds the whole bytes, and `acc` the rest, of the first `index` bits. */
  ghost predicate Packed(out: seq<byte>, acc: byte, bits: seq<bool>, index: nat) {
    && index <= |bits|
    && |out| == index / 8
    && (forall i :: 0 <= i < 8 * |out| ==> BitAt(out, i) == bits[i])
    && (forall k :: 0 <= k < 8 ==> BitOf(acc, k) == (8 * |out| + k < index && bits[8 * |out| + k]))
  }

  lemma PackOneBit(out: seq<byte>, acc: byte, bits: seq<bool>, index: nat)
    requires Packed(out, acc, bits, index) && index < |bits|
    ensures forall k :: 0 <= k < 8 ==>
      BitOf(WithBit(acc, index % 8, bits[index]), k) == (8 * |out| + k < index + 1 && bits[8 * |out| + k])
  {
    forall k | 0 <= k < 8
      ensures BitOf(WithBit(acc, index % 8, bits[index]), k) == (8 * |out| + k < index + 1 && bits[8 * |out| + k])
    {
      WithBitReads(acc, index % 8, bits[index], k);
    }
  }

  lemma AppendByte(out: seq<byte>, acc: byte, bits: seq<bool>, i: nat)
    requires forall j :: 0 <= j < 8 * |out| && j < |bits| ==> BitAt(out, j) == bits[j]
    requires forall k :: 0 <= k < 8 ==> BitOf(acc, k) == (8 * |out| + k < |bits| && bits[8 * |out| + k])
    requires i < 8 * |out| + 8 && (i < 8 * |out| ==> i < |bits|)
    ensures BitAt(out + [acc], i) == (i < |bits| && bits[i])
  {
    if i < 8 * |out| {
      assert BitAt(out + [acc], i) == BitAt(out, i);
    } else {
      assert i == 8 * |out| + i % 8 && i / 8 == |out|;
      assert BitAt(out + [acc], i) == BitOf(acc, i % 8);
    }
  }

  lemma PackWholeByte(out: seq<byte>, acc: byte, bits: seq<bool>, index: nat)
    requires index <= |bits| && index == 8 * |out| + 8
    requires forall i :: 0 <= i < 8 * |out| ==> BitAt(out, i) == bits[i]
    requires forall k :: 0 <= k < 8 ==> BitOf(acc, k) == (8 * |out| + k < index && bits[8 * |out| + k])
    ensures Packed(out + [acc], 0, bits, index)
  {
    forall i | 0 <= i < 8 * |out + [acc]|
      ensures BitAt(out + [acc], i) == bits[i]
    {
      AppendByte(out, acc, bits, i);
    }
  }

  lemma PackLastByte(out: seq<byte>, acc: byte, bits: seq<bool>)
    requires Packed(out, acc, bits, |bits|)
    ensures forall i :: 0 <= i < 8 * |out| + 8 ==> BitAt(out + [acc], i) == (i < |bits| && bits[i])
  {
    forall i | 0 <= i < 8 * |out| + 8
      ensures BitAt(out + [acc], i) == (i < |bits| && bits[i])
    {
      AppendByte(out, acc, bits, i);
    }
  }

  lemma NothingPacked(bits: seq<bool>)
    ensures Packed([], 0, bits, 0)
  {
  }

  lemma RunNext(levels: seq<real>, index: nat)
    requires index < |levels|
    ensures Run(levels[..0]) == START && Run(levels[..index + 1]) == Step(Run(levels[..index]), levels[index])
  {
    assert levels[..index + 1][..index] == levels[..index];
  }

  /** Bytes that read as `bits`, the first bit least significant, and as clear bits after them. */
  lemma BytesOfBits(out: seq<byte>, bits: seq<bool>)
    requires |bits| <= 8 * |out|
    requires forall i :: 0 <= i < 8 * |out| ==> BitAt(out, i) == (i < |bits| && bits[i])
    ensures forall i :: 0 <= i < |out| ==> out[i] as nat == SumOfBits(bits, 8 * i, 8)
  {
    hide BitOf, SumOfBits;
    forall i | 0 <= i < |out|
      ensures out[i] as nat == SumOfBits(bits, 8 * i, 8)
    {
      forall k | 0 <= k < 8
        ensures BitOf(out[i], k) == (8 * i + k < |bits| && bits[8 * i + k])
      {
        assert (8 * i + k) / 8 == i && (8 * i + k) % 8 == k;
        assert BitAt(out, 8 * i + k) == BitOf(out[i], k);
      }
      ByteOfBits(out[i], bits, 8 * i);
    }
  }

  /** The byte string of the modulator: bit i of the stream is bit i % 8 of byte i / 8, of weight
      2^(i % 8), and the bits past the end of the stream are clear. */
  method Modulate(levels: seq<real>) returns (out: seq<byte>)
    ensures |out| == (|levels| + 7) / 8
    ensures UnpackBits(out, |levels|) == Bits(levels)
    ensures forall i :: |levels| <= i < 8 * |out| ==> !BitAt(out, i)
    ensures forall i :: 0 <= i < |out| ==> out[i] as nat == SumOfBits(Bits(levels), 8 * i, 8)
  {
    hide Bits, WithBit, BitOf, SumOfBits;
    var first, second, feedback := 0.0, 0.0, 0.0;
    out := [];
    var acc: byte := 0;
    ghost var bits := Bits(levels);
    NothingPacked(bits);
    for index := 0 to |levels|
      invariant Loop(first, second, feedback) == Run(levels[..index])
      invariant Packed(out, acc, bits, index)
    {
      var level := levels[index];
      RunNext(levels, index);
      first := first + level - feedback;
      second := second + first - feedback;
      var bit := second >= 0.0;
      feedback := if bit then 1.0 else -1.0;
      BitDecided(levels, index);
      PackOneBit(out, acc, bits, index);
      acc := WithBit(acc, index % 8, bit);
      if index % 8 == 7 {
        PackWholeByte(out, acc, bits, index + 1);
        out := out + [acc];
        acc := 0;
      }
    }
    if |levels| % 8 != 0 {
      PackLastByte(out, acc, bits);
      out := out + [acc];
    }
    BytesOfBits(out, bits);
  }

  // ---------------------------------------------------------------------------
  // Conservation: what the loop accumulates, for every level sequence
  // ---------------------------------------------------------------------------

  /** The symbols sent so far differ from the levels received so far only by what is
      still held in the first integrator and in the feedback path. */
  lemma {:induction false} SymbolsTelescope(levels: seq<real>)
    ensures SymbolSum(Bits(levels)) == Sum(levels) - Run(levels).first + Run(levels).feedback
  {
    if levels != [] {
      var before := levels[..|levels| - 1];
      SymbolsTelescope(before);
      assert Bits(levels)[..|levels| - 1] == Bits(before);
    }
  }

  lemma {:induction false} SumOfConstant(level: real, n: nat)
    ensures Sum(Constant(level, n)) == level * n as real
  {
    if n > 0 {
      assert Constant(level, n)[..n - 1] == Constant(level, n - 1);
      SumOfConstant(level, n - 1);
    }
  }

  lemma {:induction false} SymbolSumBounded(bits: seq<bool>)
    ensures Abs(SymbolSum(bits)) <= |bits| as real
  {
    if bits != [] {
      SymbolSumBounded(bits[..|bits| - 1]);
    }
  }

  // ---------------------------------------------------------------------------
  // Stability at a constant level
  // ---------------------------------------------------------------------------

  /** Conserved while the fed-back symbol is +1, with a = 1 - level and the integrators less that
      symbol; while it is -1, with a = 1 + level and both mirrored. */
  ghost function Parabola(a: real, e: real, w: real): real {
    2.0 * a * w + e * e - a * e
  }

  ghost function Rim(a: real, r: real): real {
    r * r + a * (r - 2.0)
  }

  ghost predicate Held(u: real, r: real, positive: bool, e: real, w: real) {
    && -r < e < r
    && (positive ==> Parabola(1.0 - u, e, w) < Rim(1.0 - u, r))
    && (!positive ==> Parabola(1.0 + u, -e, -w) < Rim(1.0 + u, r))
  }

  /** The region of radius `r` between two parabolas that the loop cannot leave. */
  ghost predicate Inside(u: real, r: real, m: Loop) {
    && m.feedback == Symbol(m.second >= 0.0)
    && Held(u, r, m.second >= 0.0, m.first - m.feedback, m.second - m.feedback)
  }

  // Small facts about products, stated on variables so that they are proved once.

  lemma ProductNonNegative(x: real, y: real)
    requires x >= 0.0 && y >= 0.0
    ensures x * y >= 0.0
  {
  }

  lemma ProductPositive(x: real, y: real)
    requires x > 0.0 && y > 0.0
    ensures x * y > 0.0
  {
  }

  lemma CancelPositive(x: real, y: real, k: real)
    requires k > 0.0 && x * k <= y * k
    ensures x <= y
  {
    if x > y {
      ProductPositive(x - y, k);
    }
  }

  lemma ParabolaConserved(a: real, e: real, w: real)
    ensures Parabola(a, e - a, w + e - a) == Parabola(a, e, w)
  {
  }

  /** A product that proofs about sums of products need not look into. */
  ghost function Times(x: real, y: real): real {
    x * y
  }

  lemma ParabolaExpands(a: real, e: real, w: real)
    ensures Parabola(a, e, w) == 2.0 * Times(a, w) + Times(e, e) - Times(a, e)
  {
  }

  lemma ParabolaMirrored(b: real, g: real, v: real)
    ensures Parabola(b, -g, -v) == Times(g, g) + Times(b, g) - 2.0 * Times(b, v)
  {
  }

  lemma RimExpands(a: real, r: real)
    ensures Rim(a, r) == Times(r, r) + Times(a, r) - 2.0 * a
  {
  }

  lemma NotBelowCrossing(a: real, w: real)
    requires 0.0 < a && w >= -1.0
    ensures Times(a, w) >= -a
  {
    ProductNonNegative(a, w + 1.0);
    assert a * (w + 1.0) == a * w + a;
  }

  lemma BelowLine(b: real, g: real, v: real)
    requires 0.0 < b && g - 1.0 <= v
    ensures Times(b, g) - b <= Times(b, v)
  {
    ProductNonNegative(b, v - g + 1.0);
    assert b * (v - g + 1.0) == b * v - b * g + b;
  }

  lemma OutsideRoots(a: real, r: real, e: real)
    requires 0.0 < a && r >= 0.0 && e <= -r
    ensures Times(e, e) - Times(a, e) >= Times(r, r) + Times(a, r)
  {
    ProductNonNegative(-r - e, r + a - e);
    assert (-r - e) * (r + a - e) == e * e - a * e - r * r - a * r;
  }

  lemma BetweenRoots(b: real, r: real, g: real)
    requires b - r < g < r
    ensures Times(g, g) - Times(b, g) < Times(r, r) - Times(b, r)
  {
    ProductPositive(r - g, g + r - b);
    assert (r - g) * (g + r - b) == r * r - b * r - g * g + b * g;
  }

  lemma RadiusTimes(b: real, r: real)
    requires 0.0 < b && r >= 2.0
    ensures 2.0 * b <= Times(b, r)
  {
    ProductNonNegative(b, r - 2.0);
    assert b * (r - 2.0) == b * r - 2.0 * b;
  }

  /** Under the parabola and not below the crossing line, the first integrator is above -r. */
  lemma AboveLeftRoot(a: real, r: real, e: real, w: real)
    requires 0.0 < a && r >= 2.0 && w >= -1.0
    requires Parabola(a, e, w) < Rim(a, r)
    ensures e > -r
  {
    hide Times, Parabola, Rim;
    if e <= -r {
      OutsideRoots(a, r, e);
      NotBelowCrossing(a, w);
      ParabolaExpands(a, e, w);
      RimExpands(a, r);
    }
  }

  /** A loop that stays on the side of its symbol stays under the same parabola. */
  lemma StaysOnSide(a: real, r: real, e: real, w: real)
    requires 0.0 < a && r >= 2.0 && e < r && w + e - a >= -1.0
    requires Parabola(a, e, w) < Rim(a, r)
    ensures -r < e - a < r && Parabola(a, e - a, w + e - a) < Rim(a, r)
  {
    hide Parabola, Rim;
    ParabolaConserved(a, e, w);
    AboveLeftRoot(a, r, e - a, w + e - a);
  }

  /** A loop that crosses to the other side lands under the mirrored parabola. */
  lemma CrossesOver(b: real, r: real, g: real, v: real)
    requires 0.0 < b < 2.0 && r >= 2.0
    requires b - r < g < 2.0 && g - 1.0 <= v
    ensures -r < g < r && Parabola(b, -g, -v) < Rim(b, r)
  {
    hide Times, Parabola, Rim;
    BelowLine(b, g, v);
    BetweenRoots(b, r, g);
    RadiusTimes(b, r);
    RimExpands(b, r);
    ParabolaMirrored(b, g, v);
  }

  /** One step keeps the region, whatever its radius from 2 on and whatever the level. */
  lemma StepStaysInside(u: real, r: real, m: Loop)
    requires -1.0 < u < 1.0 && r >= 2.0 && Inside(u, r, m)
    ensures Inside(u, r, Step(m, u))
  {
    hide Parabola, Rim;
    var e, w := m.first - m.feedback, m.second - m.feedback;
    var n := Step(m, u);
    if m.second >= 0.0 && n.second >= 0.0 {
      StaysOnSide(1.0 - u, r, e, w);
    } else if m.second >= 0.0 {
      CrossesOver(1.0 + u, r, e + 1.0 + u, w + e + 1.0 + u);
    } else if n.second < 0.0 {
      StaysOnSide(1.0 + u, r, -e, -w);
    } else {
      CrossesOver(1.0 - u, r, -e + 1.0 - u, -w - e + 1.0 - u);
    }
  }

  lemma RunOfConstant(u: real, n: nat)
    requires n > 0
    ensures Run(Constant(u, n)) == Step(Run(Constant(u, n - 1)), u)
  {
    assert Constant(u, n)[..n - 1] == Constant(u, n - 1);
  }

  lemma FirstStepInside(u: real)
    requires -1.0 < u < 1.0
    ensures Inside(u, 2.0, Step(START, u))
  {
    assert Parabola(1.0 - u, u - 1.0, u - 1.0) == 0.0;
    assert Parabola(1.0 + u, -(u + 1.0), -(u + 1.0)) == 0.0;
  }

  lemma {:induction false} RunStaysInside(u: real, n: nat)
    requires -1.0 < u < 1.0 && n > 0
    ensures Inside(u, 2.0, Run(Constant(u, n)))
  {
    hide Inside;
    RunOfConstant(u, n);
    if n == 1 {
      FirstStepInside(u);
    } else {
      RunStaysInside(u, n - 1);
      StepStaysInside(u, 2.0, Run(Constant(u, n - 1)));
    }
  }

  /** Both integrators, in terms of the radius; the second one also of the distance of the level
      from the rails. */
  ghost predicate Bounded(u: real, r: real, m: Loop) {
    && Abs(m.first) < r + 1.0
    && 2.0 * Times(1.0 - Abs(u), Abs(m.second)) < Times(r + 1.0, r + 1.0)
  }

  lemma SquareOfDifference(e: real, h: real)
    ensures Times(e, e) - Times(2.0 * h, e) >= -Times(h, h)
  {
    var d := e - h;
    assert d * d >= 0.0;
    assert d * d == e * e - 2.0 * h * e + h * h;
  }

  lemma TimesBelow(a: real, b: real, x: real)
    requires a <= b && x >= 0.0
    ensures Times(a, x) <= Times(b, x)
  {
    ProductNonNegative(b - a, x);
    Distribute(b, a, x);
  }

  lemma TimesPredecessor(a: real, s: real)
    ensures Times(a, s - 1.0) == Times(a, s) - a
  {
  }

  lemma TimesOfOne(x: real)
    ensures Times(1.0, x) == x
  {
  }

  lemma TimesOfTwo(r: real)
    ensures Times(2.0, r) == 2.0 * r && Times(r + 1.0, r + 1.0) == Times(r, r) + 2.0 * r + 1.0
  {
  }

  lemma SecondWithin(a: real, d: real, r: real, e: real, s: real)
    requires 0.0 < d <= a < 2.0 && r >= 2.0 && s >= 0.0
    requires Parabola(a, e, s - 1.0) < Rim(a, r)
    ensures 2.0 * Times(d, s) < Times(r + 1.0, r + 1.0)
  {
    hide Times, Parabola, Rim;
    SquareOfDifference(e, a / 2.0);
    TimesBelow(a / 2.0, 1.0, a / 2.0);
    TimesOfOne(a / 2.0);
    TimesBelow(a, 2.0, r);
    TimesBelow(d, a, s);
    ParabolaExpands(a, e, s - 1.0);
    TimesPredecessor(a, s);
    RimExpands(a, r);
    TimesOfTwo(r);
  }

  lemma InsideIsBounded(u: real, r: real, m: Loop)
    requires -1.0 < u < 1.0 && r >= 2.0 && Inside(u, r, m)
    ensures Bounded(u, r, m)
  {
    hide Times, Parabola, Rim;
    var d := 1.0 - Abs(u);
    if m.second >= 0.0 {
      SecondWithin(1.0 - u, d, r, m.first - 1.0, m.second);
    } else {
      SecondWithin(1.0 + u, d, r, -(m.first + 1.0), -m.second);
    }
  }

  /** For every level strictly inside (-1, 1) and every run length, the first integrator stays
      below 3 and the second below 9/2 over the distance of the level from the rails. */
  lemma IntegratorsBounded(u: real, n: nat)
    requires -1.0 < u < 1.0
    ensures Bounded(u, 2.0, Run(Constant(u, n)))
  {
    if n > 0 {
      RunStaysInside(u, n);
      InsideIsBounded(u, 2.0, Run(Constant(u, n)));
    }
  }

  // ---------------------------------------------------------------------------
  // The mean of the bit stream
  // ---------------------------------------------------------------------------

  /** How far the symbols of `n` bits have drifted from a level of `u` per bit. */
  function Drift(bits: seq<bool>, u: real, n: nat): real {
    SymbolSum(bits) - u * n as real
  }

  function DcBits(u: real, n: nat): (bits: seq<bool>)
    ensures |bits| == n
  {
    Bits(Constant(u, n))
  }

  lemma DriftIsHeldState(u: real, n: nat)
    ensures Drift(DcBits(u, n), u, n) == Run(Constant(u, n)).feedback - Run(Constant(u, n)).first
  {
    SymbolsTelescope(Constant(u, n));
    SumOfConstant(u, n);
  }

  lemma FeedbackIsSymbol(levels: seq<real>)
    ensures Abs(Run(levels).feedback) <= 1.0
  {
  }

  /** Strictly inside the rails the symbols never drift from the level by 2, whatever the level
      and however long the stream. */
  lemma DriftBounded(u: real, n: nat)
    requires -1.0 < u < 1.0
    ensures Abs(Drift(DcBits(u, n), u, n)) < 2.0
  {
    DriftIsHeldState(u, n);
    if n > 0 {
      RunStaysInside(u, n);
    }
  }

  lemma QuotientTimes(x: real, k: real)
    requires k > 0.0
    ensures (x / k) * k == x
  {
  }

  lemma Distribute(x: real, y: real, k: real)
    ensures (x - y) * k == x * k - y * k
  {
  }

  lemma QuotientError(x: real, u: real, k: real)
    requires k > 0.0
    ensures Abs(x / k - u) * k == Abs(x - u * k)
  {
    var q := x / k;
    QuotientTimes(x, k);
    Distribute(q, u, k);
    if q < u {
      ProductPositive(u - q, k);
    } else {
      ProductNonNegative(q - u, k);
    }
  }

  lemma DivideBound(error: real, k: real, c: real, product: real)
    requires k > 0.0 && error * k == product && product < c
    ensures error < c / k
  {
    var bound := c / k;
    QuotientTimes(c, k);
    if error >= bound {
      ProductNonNegative(error - bound, k);
      Distribute(error, bound, k);
    }
  }

  /** How far the mean of a stream is from `u`. */
  function MeanError(bits: seq<bool>, u: real): real
    requires bits != []
  {
    Abs(Mean(bits) - u)
  }

  lemma ErrorTimesLength(bits: seq<bool>, u: real, n: nat)
    requires |bits| == n > 0
    ensures MeanError(bits, u) * n as real == Abs(Drift(bits, u, n))
  {
    QuotientError(SymbolSum(bits), u, n as real);
  }

  lemma DriftIsError(bits: seq<bool>, u: real, n: nat)
    requires |bits| == n > 0 && Abs(Drift(bits, u, n)) < 2.0
    ensures MeanError(bits, u) < 2.0 / n as real
  {
    hide MeanError, Drift;
    ErrorTimesLength(bits, u, n);
    DivideBound(MeanError(bits, u), n as real, 2.0, Abs(Drift(bits, u, n)));
  }

  /** The mean of `bits` is `u` precisely when its symbols add up to `u` per bit. */
  lemma MeanIffSum(bits: seq<bool>, u: real, n: nat)
    requires |bits| == n > 0
    ensures Mean(bits) == u <==> Drift(bits, u, n) == 0.0
  {
    var k := n as real;
    var x := SymbolSum(bits);
    QuotientTimes(x, k);
    Distribute(x / k, u, k);
    ZeroProduct(x / k - u, k);
  }

  lemma ZeroProduct(x: real, k: real)
    requires k > 0.0
    ensures x * k == 0.0 <==> x == 0.0
  {
  }

  /** The finite-length form of the modulator's purpose: the mean of the stream is within 2/n of
      the level, for one and the same constant at every level. */
  lemma MeanWithinBound(u: real, n: nat)
    requires -1.0 < u < 1.0 && n > 0
    ensures MeanError(DcBits(u, n), u) < 2.0 / n as real
  {
    DriftBounded(u, n);
    hide Drift, MeanError, DcBits;
    DriftIsError(DcBits(u, n), u, n);
  }

  /** `n` symbols can only add up to an integer that is even or odd as `n` is. */
  predicate Representable(total: real, n: nat) {
    total == total.Floor as real && (total.Floor - n) % 2 == 0
  }

  lemma RepresentableInteger(k: int, n: nat)
    requires (k - n) % 2 == 0
    ensures Representable(k as real, n)
  {
  }

  lemma {:induction false} SymbolSumIsInteger(bits: seq<bool>) returns (k: int)
    ensures SymbolSum(bits) == k as real && (k - |bits|) % 2 == 0
  {
    if bits == [] {
      k := 0;
    } else {
      var before := SymbolSumIsInteger(bits[..|bits| - 1]);
      k := if bits[|bits| - 1] then before + 1 else before - 1;
    }
  }

  lemma EvenAndSmall(d: int)
    requires d % 2 == 0 && -2 < d < 2
    ensures d == 0
  {
  }

  /** A sum of `n` symbols that differs from `total` by less than 2 is `total` or `total` is none. */
  lemma RepresentableApart(k: int, total: real, n: nat)
    requires (k - n) % 2 == 0 && Abs(k as real - total) < 2.0
    ensures k as real - total == 0.0 <==> Representable(total, n)
  {
    if Representable(total, n) {
      EvenAndSmall(k - total.Floor);
    } else if k as real == total {
      RepresentableInteger(k, n);
    }
  }

  lemma {:induction false} RailsAreFixedPoints(u: real, n: nat)
    requires (u == 1.0 || u == -1.0) && n > 0
    ensures Run(Constant(u, n)) == Loop(u, u, u)
  {
    RunOfConstant(u, n);
    if n > 1 {
      RailsAreFixedPoints(u, n - 1);
    }
  }

  lemma RailsHaveNoDrift(u: real, n: nat)
    requires (u == 1.0 || u == -1.0) && n > 0
    ensures Drift(DcBits(u, n), u, n) == 0.0
  {
    DriftIsHeldState(u, n);
    RailsAreFixedPoints(u, n);
  }

  lemma SumExactIff(u: real, n: nat)
    requires -1.0 <= u <= 1.0 && n > 0
    ensures Drift(DcBits(u, n), u, n) == 0.0 <==> Representable(u * n as real, n)
  {
    hide Representable, DcBits, SymbolSum;
    if -1.0 < u < 1.0 {
      DriftBounded(u, n);
    } else {
      RailsHaveNoDrift(u, n);
    }
    var k := SymbolSumIsInteger(DcBits(u, n));
    RepresentableApart(k, u * n as real, n);
  }

  /** The mean is EXACTLY the level precisely when the level is not beyond the rails and `n`
      symbols can add up to `n` times the level at all. */
  lemma MeanExactIff(u: real, n: nat)
    requires n > 0
    ensures Mean(DcBits(u, n)) == u <==> -1.0 <= u <= 1.0 && Representable(u * n as real, n)
  {
    if -1.0 <= u <= 1.0 {
      SumExactIff(u, n);
      MeanIffSum(DcBits(u, n), u, n);
    } else {
      MeanIsASymbolAverage(DcBits(u, n));
    }
  }

  /** A finite stream whose mean is not its level: one bit at 1/4. */
  lemma MeanNotAlwaysExact()
    ensures Mean(DcBits(0.25, 1)) == 1.0
  {
    var levels := Constant(0.25, 1);
    assert levels[..0] == [] && levels[0] == 0.25;
    assert Run(levels) == Step(START, 0.25);
    var bits := DcBits(0.25, 1);
    assert bits == [true];
    assert bits[..0] == [];
    assert SymbolSum(bits) == 1.0;
    QuotientTimes(1.0, 1.0);
  }

  /** The harness's own constant stimuli, +1/4 and -1/4 over 176400 bits, have exactly their
      level as mean. */
  lemma StimulusExact(u: real)
    requires u == 0.25 || u == -0.25
    ensures Mean(DcBits(u, 176400)) == u
  {
    MeanExactIff(u, 176400);
    assert u * 176400.0 == 44100.0 || u * 176400.0 == -44100.0;
  }

  ghost predicate Within(u: real, n: nat, eps: real) {
    n > 0 ==> MeanError(DcBits(u, n), u) <= eps
  }

  ghost predicate WithinFrom(u: real, start: nat, eps: real) {
    forall n: nat :: n >= start ==> Within(u, n, eps)
  }

  ghost predicate EventuallyWithin(u: real, eps: real) {
    exists start: nat :: WithinFrom(u, start, eps)
  }

  /** The mean of the stream tends to the level as the stream grows. */
  ghost predicate MeanConverges(u: real) {
    forall eps: real :: eps > 0.0 ==> EventuallyWithin(u, eps)
  }

  /** A length from which c/n is at most eps. */
  lemma LongEnough(c: real, eps: real) returns (start: nat)
    requires c >= 0.0 && eps > 0.0
    ensures start as real * eps >= c
  {
    start := (c / eps).Floor + 1;
    QuotientTimes(c, eps);
    ProductNonNegative(start as real - c / eps, eps);
    Distribute(start as real, c / eps, eps);
  }

  lemma QuotientShrinks(c: real, n: real, start: real, eps: real)
    requires n > 0.0 && n >= start && eps > 0.0 && c <= start * eps
    ensures c / n <= eps
  {
    QuotientTimes(c, n);
    ProductNonNegative(n - start, eps);
    Distribute(n, start, eps);
    CancelPositive(c / n, eps, n);
  }

  lemma ConvergesInside(u: real, eps: real) returns (start: nat)
    requires -1.0 < u < 1.0 && eps > 0.0
    ensures WithinFrom(u, start, eps)
  {
    hide MeanError, DcBits;
    start := LongEnough(2.0, eps);
    forall n: nat | n >= start
      ensures Within(u, n, eps)
    {
      if n > 0 {
        MeanWithinBound(u, n);
        QuotientShrinks(2.0, n as real, start as real, eps);
      }
    }
  }

  lemma FactorWithin(q: real, x: real, k: real)
    requires k > 0.0 && q * k == x && -k <= x <= k
    ensures -1.0 <= q <= 1.0
  {
    if q < -1.0 {
      ProductPositive(-1.0 - q, k);
      Distribute(-1.0, q, k);
    } else if q > 1.0 {
      ProductPositive(q - 1.0, k);
      Distribute(q, 1.0, k);
    }
  }

  lemma QuotientWithin(x: real, k: real)
    requires k > 0.0 && Abs(x) <= k
    ensures -1.0 <= x / k <= 1.0
  {
    QuotientTimes(x, k);
    FactorWithin(x / k, x, k);
  }

  lemma MeanIsASymbolAverage(bits: seq<bool>)
    requires bits != []
    ensures -1.0 <= Mean(bits) <= 1.0
  {
    SymbolSumBounded(bits);
    QuotientWithin(SymbolSum(bits), |bits| as real);
  }

  lemma OutsideStaysAway(u: real, n: nat)
    requires Abs(u) > 1.0 && n > 0
    ensures !Within(u, n, (Abs(u) - 1.0) / 2.0)
  {
    MeanIsASymbolAverage(DcBits(u, n));
  }

  /** The levels the loop can reproduce are exactly those the guard of the constant-level
      stimulus admits, together with the two rails it refuses. */
  lemma MeanConvergesIff(u: real)
    ensures MeanConverges(u) <==> -1.0 <= u <= 1.0
  {
    if -1.0 < u < 1.0 {
      forall eps: real | eps > 0.0
        ensures EventuallyWithin(u, eps)
      {
        var start := ConvergesInside(u, eps);
      }
    } else if u == 1.0 || u == -1.0 {
      forall eps: real | eps > 0.0
        ensures EventuallyWithin(u, eps)
      {
        forall n: nat | n >= 0
          ensures Within(u, n, eps)
        {
          if n > 0 {
            RailsHaveNoDrift(u, n);
            MeanIffSum(DcBits(u, n), u, n);
          }
        }
        assert WithinFrom(u, 0, eps);
      }
    } else {
      var eps := (Abs(u) - 1.0) / 2.0;
      if EventuallyWithin(u, eps) {
        var start: nat :| WithinFrom(u, start, eps);
        assert Within(u, start + 1, eps);
        OutsideStaysAway(u, start + 1);
      }
    }
  }

  lemma EscapeArithmetic(u: real, k: real, n: real, symbols: real, first: real)
    requires Abs(u) > 1.0 && k >= 0.0 && n == k + 1.0 && Abs(symbols) <= k
    requires first == u - (symbols - u * k)
    ensures Abs(first) >= (Abs(u) - 1.0) * n
  {
    ProductNonNegative(Abs(u), k);
    if u > 0.0 {
      assert (u - 1.0) * (k + 1.0) == u * k + u - k - 1.0;
    } else {
      assert (-u - 1.0) * (k + 1.0) == -(u * k) - u - k - 1.0;
    }
  }

  lemma DriftEscapes(bits: seq<bool>, u: real, n: nat, first: real)
    requires Abs(u) > 1.0 && |bits| == n
    requires first == u - Drift(bits, u, n)
    ensures Abs(first) >= (Abs(u) - 1.0) * (n + 1) as real
  {
    SymbolSumBounded(bits);
    EscapeArithmetic(u, n as real, (n + 1) as real, SymbolSum(bits), first);
  }

  /** Beyond the rails the first integrator escapes linearly, so no bound can exist. */
  lemma OverloadEscapes(u: real, n: nat)
    requires Abs(u) > 1.0
    ensures Abs(Run(Constant(u, n + 1)).first) >= (Abs(u) - 1.0) * (n + 1) as real
  {
    RunOfConstant(u, n + 1);
    DriftIsHeldState(u, n);
    DriftEscapes(DcBits(u, n), u, n, Run(Constant(u, n + 1)).first);
  }

  // ---------------------------------------------------------------------------
  // A step of the level
  // ---------------------------------------------------------------------------

  /** The levels of a step stimulus: `before` up to the transition, `after` from it on. */
  function StepLevels(before: real, after: real, n: nat, transition: nat): seq<real>
    requires transition <= n
  {
    Constant(before, transition) + Constant(after, n - transition)
  }

  /** Every decision depends on the levels so far only. */
  lemma {:induction false} DecisionsAreCausal(levels: seq<real>, more: seq<real>)
    ensures Bits(levels + more)[..|levels|] == Bits(levels)
  {
    if more == [] {
      assert levels + more == levels;
    } else {
      var init := more[..|more| - 1];
      assert (levels + more)[..|levels + more| - 1] == levels + init;
      DecisionsAreCausal(levels, init);
    }
  }

  lemma RimExceeds(a: real, r: real, x: real)
    requires 0.0 < a && r >= 3.0 && r > x
    ensures x < Rim(a, r)
  {
    ProductNonNegative(r - 3.0, r);
    ProductNonNegative(a, r - 2.0);
  }

  /** The regions the loop cannot leave cover every state it can be in. */
  lemma EveryStateIsInside(u: real, m: Loop) returns (r: real)
    requires -1.0 < u < 1.0 && m.feedback == Symbol(m.second >= 0.0)
    ensures r >= 2.0 && Inside(u, r, m)
  {
    hide Parabola, Rim;
    var e, w := m.first - m.feedback, m.second - m.feedback;
    var up, down := Parabola(1.0 - u, e, w), Parabola(1.0 + u, -e, -w);
    r := Abs(e) + Abs(up) + Abs(down) + 3.0;
    RimExceeds(1.0 - u, r, up);
    RimExceeds(1.0 + u, r, down);
  }

  lemma {:induction false} StaysInside(u: real, r: real, levels: seq<real>, n: nat)
    requires -1.0 < u < 1.0 && r >= 2.0 && levels != [] && Inside(u, r, Run(levels))
    ensures Inside(u, r, Run(levels + Constant(u, n)))
  {
    hide Inside;
    if n == 0 {
      assert levels + Constant(u, 0) == levels;
    } else {
      StaysInside(u, r, levels, n - 1);
      assert (levels + Constant(u, n))[..|levels| + n - 1] == levels + Constant(u, n - 1);
      StepStaysInside(u, r, Run(levels + Constant(u, n - 1)));
    }
  }

  lemma DecidedState(levels: seq<real>)
    requires levels != []
    ensures Run(levels).feedback == Symbol(Run(levels).second >= 0.0)
  {
  }

  /** After any stimulus whatever, a constant level strictly inside (-1, 1) keeps both
      integrators within a bound that no length of it exceeds. */
  lemma StepResponseBounded(levels: seq<real>, u: real) returns (r: real)
    requires -1.0 < u < 1.0 && levels != []
    ensures r >= 2.0 && forall n: nat :: Bounded(u, r, Run(levels + Constant(u, n)))
  {
    hide Inside, Bounded;
    DecidedState(levels);
    r := EveryStateIsInside(u, Run(levels));
    forall n: nat
      ensures Bounded(u, r, Run(levels + Constant(u, n)))
    {
      StaysInside(u, r, levels, n);
      InsideIsBounded(u, r, Run(levels + Constant(u, n)));
    }
  }

  lemma {:induction false} SumOfConcat(a: seq<real>, b: seq<real>)
    ensures Sum(a + b) == Sum(a) + Sum(b)
  {
    if b == [] {
      assert a + b == a;
    } else {
      assert (a + b)[..|a + b| - 1] == a + b[..|b| - 1];
      SumOfConcat(a, b[..|b| - 1]);
    }
  }

  /** How far the symbols after the transition have drifted from `u` per bit. */
  ghost function StepDrift(levels: seq<real>, u: real, n: nat): real {
    SymbolSum(Bits(levels + Constant(u, n))) - SymbolSum(Bits(levels)) - u * n as real
  }

  /** What the first integrator and the feedback path hold. */
  ghost function HeldBy(levels: seq<real>): real {
    Run(levels).first - Run(levels).feedback
  }

  lemma StepDriftIsHeld(levels: seq<real>, u: real, n: nat)
    ensures StepDrift(levels, u, n) == HeldBy(levels) - HeldBy(levels + Constant(u, n))
  {
    hide Run, Bits, SymbolSum, Sum;
    SymbolsTelescope(levels);
    SymbolsTelescope(levels + Constant(u, n));
    SumOfConcat(levels, Constant(u, n));
    SumOfConstant(u, n);
  }

  /** From the transition on, the symbols follow the new level up to a bound that the length of
      the stream does not enter. */
  lemma StepDriftBounded(levels: seq<real>, u: real) returns (k: real)
    requires -1.0 < u < 1.0 && levels != []
    ensures forall n: nat :: Abs(StepDrift(levels, u, n)) <= k
  {
    hide Run, StepDrift;
    var r := StepResponseBounded(levels, u);
    k := r + Abs(Run(levels).first) + 3.0;
    forall n: nat
      ensures Abs(StepDrift(levels, u, n)) <= k
    {
      StepDriftIsHeld(levels, u, n);
      FeedbackIsSymbol(levels);
      FeedbackIsSymbol(levels + Constant(u, n));
      assert Bounded(u, r, Run(levels + Constant(u, n)));
    }
  }

  lemma StepAtStart(before: real, after: real, n: nat)
    ensures StepLevels(before, after, n, 0) == Constant(after, n) && DcBits(before, 0) == []
    ensures SymbolSum(DcBits(before, 0)) == 0.0
  {
    assert Constant(before, 0) == [];
  }

  /** The part of a step stimulus before the transition, and what its symbols after it add up to. */
  ghost function AfterStep(before: real, after: real, n: nat, transition: nat): real
    requires transition <= n
  {
    SymbolSum(Bits(StepLevels(before, after, n, transition))) - SymbolSum(DcBits(before, transition))
  }

  lemma StepFromStart(before: real, after: real, n: nat)
    requires -1.0 < after < 1.0
    ensures Bits(StepLevels(before, after, n, 0))[..0] == DcBits(before, 0)
    ensures Abs(AfterStep(before, after, n, 0) - after * (n - 0) as real) < 2.0
  {
    StepAtStart(before, after, n);
    DriftBounded(after, n);
  }

  /** A step stimulus follows its first level to the bit before the transition and its second
      level, up to a bound, after it. */
  lemma StepFollowsBothLevels(before: real, after: real, transition: nat) returns (k: real)
    requires -1.0 < after < 1.0
    ensures forall n: nat :: n >= transition ==>
              && Bits(StepLevels(before, after, n, transition))[..transition] == DcBits(before, transition)
              && Abs(AfterStep(before, after, n, transition) - after * (n - transition) as real) <= k
  {
    hide Bits, SymbolSum, DcBits;
    var levels := Constant(before, transition);
    k := 2.0;
    if transition > 0 {
      k := StepDriftBounded(levels, after);
    }
    forall n: nat | n >= transition
      ensures Bits(StepLevels(before, after, n, transition))[..transition] == DcBits(before, transition)
      ensures Abs(AfterStep(before, after, n, transition) - after * (n - transition) as real) <= k
    {
      if transition == 0 {
        StepFromStart(before, after, n);
      } else {
        DecisionsAreCausal(levels, Constant(after, n - transition));
        assert Abs(StepDrift(levels, after, n - transition)) <= k;
        AfterStepIsDrift(before, after, n, transition);
      }
    }
  }

  lemma AfterStepIsDrift(before: real, after: real, n: nat, transition: nat)
    requires transition <= n
    ensures AfterStep(before, after, n, transition) - after * (n - transition) as real
         == StepDrift(Constant(before, transition), after, n - transition)
    ensures DcBits(before, transition) == Bits(Constant(before, transition))
  {
  }

  // When both levels are inside the rails, the bound depends on the first level alone.

  lemma SmallSquare(e: real)
    requires -2.0 < e < 2.0
    ensures Times(e, e) < 4.0
  {
    ProductPositive(2.0 - e, 2.0 + e);
    assert (2.0 - e) * (2.0 + e) == 4.0 - e * e;
  }

  lemma SmallProduct(a: real, e: real)
    requires 0.0 < a < 2.0 && -2.0 < e < 2.0
    ensures Times(a, e) > -4.0
  {
    ProductPositive(a, e + 2.0);
    assert a * (e + 2.0) == a * e + 2.0 * a;
  }

  lemma ParabolaBelow(a: real, e: real, s: real, top: real)
    requires 0.0 < a < 2.0 && -2.0 < e < 2.0 && 0.0 <= s < top
    ensures Parabola(a, e, s - 1.0) < 4.0 * top + 8.0
  {
    hide Times, Parabola;
    ParabolaExpands(a, e, s - 1.0);
    TimesPredecessor(a, s);
    TimesBelow(a, 2.0, s);
    TimesOfTwo(s);
    SmallSquare(e);
    SmallProduct(a, e);
  }

  /** The second integrator's bound at a constant level. */
  function Top(u: real): real
    requires -1.0 < u < 1.0
  {
    4.5 / (1.0 - Abs(u))
  }

  lemma SecondBelow(d: real, s: real, top: real)
    requires d > 0.0 && top * d == 4.5 && 2.0 * Times(d, s) < Times(3.0, 3.0)
    ensures s < top
  {
    if s >= top {
      ProductNonNegative(s - top, d);
      Distribute(s, top, d);
    }
  }

  lemma SecondBelowTop(u: real, n: nat)
    requires -1.0 < u < 1.0
    ensures Abs(Run(Constant(u, n)).second) < Top(u)
  {
    hide Times, Run;
    var d := 1.0 - Abs(u);
    IntegratorsBounded(u, n);
    QuotientTimes(4.5, d);
    SecondBelow(d, Abs(Run(Constant(u, n)).second), Top(u));
  }

  /** The radius of the region in which the loop is when a constant level `u` ends. */
  function Reach(u: real): real
    requires -1.0 < u < 1.0
  {
    4.0 * Top(u) + 8.0
  }

  lemma InsideAt(u: real, r: real, m: Loop, top: real)
    requires -1.0 < u < 1.0 && r == 4.0 * top + 8.0 && Abs(m.second) < top
    requires m.feedback == Symbol(m.second >= 0.0) && -2.0 < m.first - m.feedback < 2.0
    ensures Inside(u, r, m)
  {
    hide Parabola, Rim;
    var e := m.first - m.feedback;
    if m.second >= 0.0 {
      ParabolaBelow(1.0 - u, e, m.second, top);
      RimExceeds(1.0 - u, r, Parabola(1.0 - u, e, m.second - 1.0));
    } else {
      ParabolaBelow(1.0 + u, -e, -m.second, top);
      RimExceeds(1.0 + u, r, Parabola(1.0 + u, -e, -m.second - 1.0));
    }
  }

  lemma TransitionIsInside(before: real, after: real, transition: nat)
    requires -1.0 < before < 1.0 && -1.0 < after < 1.0 && transition > 0
    ensures Inside(after, Reach(before), Run(Constant(before, transition)))
    ensures var m := Run(Constant(before, transition)); Abs(m.first - m.feedback) < 2.0
  {
    hide Run;
    RunStaysInside(before, transition);
    SecondBelowTop(before, transition);
    InsideAt(after, Reach(before), Run(Constant(before, transition)), Top(before));
  }

  lemma InsideIsNear(u: real, r: real, m: Loop)
    requires Inside(u, r, m)
    ensures Abs(m.first - m.feedback) < r
  {
  }

  /** With both levels inside the rails the symbols after the transition follow the second level
      up to a bound that neither that level, the length nor the place of the transition enters. */
  lemma StepFollowsWithin(before: real, after: real, n: nat, transition: nat)
    requires -1.0 < before < 1.0 && -1.0 < after < 1.0 && transition <= n
    ensures Abs(AfterStep(before, after, n, transition) - after * (n - transition) as real) < Reach(before) + 2.0
  {
    hide Run, Bits, SymbolSum, AfterStep, StepDrift, Inside, Top;
    SecondBelowTop(before, 0);
    if transition == 0 {
      StepFromStart(before, after, n);
    } else {
      var levels := Constant(before, transition);
      var m := n - transition;
      TransitionIsInside(before, after, transition);
      StaysInside(after, Reach(before), levels, m);
      InsideIsNear(after, Reach(before), Run(levels + Constant(after, m)));
      StepDriftIsHeld(levels, after, m);
      AfterStepIsDrift(before, after, n, transition);
    }
  }
}
