/** What the DoP packer writes: interleaved stereo DSD bytes carried in marked 24-bit words.
    The alternating 0x05 / 0xFA marker is the one of the "DoP Open Standard" version 1.1. */
module DopPacking {
  import opened Sequences
  import opened Wrappers
  import opened Octets

  datatype Layout = Packed24 | S32Lsb24

  /** How a segment of the carrier is written. */
  datatype Carrier = Carrier(layout: Layout, reverse: bool)

  const MARKER_LOW: byte := 0x05
  const MARKER_HIGH: byte := 0xFA

  function Marker(high: bool): byte {
    if high then MARKER_HIGH else MARKER_LOW
  }

  /** The size of `frames` DoP frames of both channels. */
  function FramesSize(frames: nat, layout: Layout): nat {
    match layout
    case Packed24 => 6 * frames
    case S32Lsb24 => 8 * frames
  }

  function Payload(b: byte, reverse: bool): byte {
    if reverse then Reverse(b) else b
  }

  /** One channel's word: the earlier DSD byte first, then the later one, then the marker. */
  function Word(earlier: byte, later: byte, high: bool, carrier: Carrier): seq<byte> {
    [Payload(earlier, carrier.reverse), Payload(later, carrier.reverse), Marker(high)] + (if carrier.layout.S32Lsb24? then [0] else [])
  }

  /** One frame: left and right, from the input order L R L R. */
  function Frame(group: seq<byte>, high: bool, carrier: Carrier): (frame: seq<byte>)
    requires |group| == 4
    ensures |frame| == FramesSize(1, carrier.layout)
  {
    Word(group[0], group[2], high, carrier) + Word(group[1], group[3], high, carrier)
  }

  /** The frames of every whole group of four input bytes. */
  function Pack(bytes: seq<byte>, high: bool, carrier: Carrier): seq<byte> {
    if |bytes| < 4 then []
    else Frame(bytes[..4], high, carrier) + Pack(bytes[4..], !high, carrier)
  }

  /** The whole groups of four bytes. */
  function Whole(bytes: seq<byte>): seq<byte> {
    if |bytes| < 4 then [] else bytes[..4] + Whole(bytes[4..])
  }

  /** The bytes past the last whole group. */
  function Leftover(bytes: seq<byte>): seq<byte> {
    if |bytes| < 4 then bytes else Leftover(bytes[4..])
  }

  function PhaseAfter(frames: nat, high: bool): bool {
    if frames % 2 == 0 then high else !high
  }

  lemma {:induction false} PackSize(bytes: seq<byte>, high: bool, carrier: Carrier)
    ensures |Pack(bytes, high, carrier)| == FramesSize(|bytes| / 4, carrier.layout)
  {
    if |bytes| >= 4 {
      PackSize(bytes[4..], !high, carrier);
    }
  }

  /** The leftover is the last n mod 4 bytes. */
  lemma {:induction false} LeftoverIsTail(bytes: seq<byte>)
    ensures Leftover(bytes) == bytes[|bytes| - |bytes| % 4..]
    ensures Whole(bytes) == bytes[..|bytes| - |bytes| % 4]
  {
    if |bytes| >= 4 {
      LeftoverIsTail(bytes[4..]);
      assert bytes == bytes[..4] + bytes[4..];
    }
  }

  lemma PhaseOfTail(n: nat, high: bool)
    ensures PhaseAfter(n, !high) == PhaseAfter(n + 1, high)
  {
  }

  lemma PackCons(group: seq<byte>, rest: seq<byte>, high: bool, carrier: Carrier)
    requires |group| == 4
    ensures Pack(group + rest, high, carrier) == Frame(group, high, carrier) + Pack(rest, !high, carrier)
  {
    assert (group + rest)[..4] == group && (group + rest)[4..] == rest;
  }

  lemma GroupsOfConcat(a: seq<byte>, b: seq<byte>)
    requires |a| >= 4
    ensures (a + b)[..4] == a[..4] && (a + b)[4..] == a[4..] + b
  {
  }

  /** Packing in two calls that hand over the leftover bytes and the marker phase is packing
      in one. */
  lemma {:induction false} PackConcat(a: seq<byte>, b: seq<byte>, high: bool, carrier: Carrier)
    ensures Pack(a + b, high, carrier)
         == Pack(a, high, carrier) + Pack(Leftover(a) + b, PhaseAfter(|a| / 4, high), carrier)
  {
    if |a| >= 4 {
      PackConcat(a[4..], b, !high, carrier);
      PhaseOfTail(|a[4..]| / 4, high);
      GroupsOfConcat(a, b);
      ConcatAssociates(Frame(a[..4], high, carrier), Pack(a[4..], !high, carrier),
                       Pack(Leftover(a) + b, PhaseAfter(|a| / 4, high), carrier));
    }
  }

  lemma {:induction false} LeftoverConcat(a: seq<byte>, b: seq<byte>)
    ensures Leftover(Leftover(a) + b) == Leftover(a + b)
    ensures |a| / 4 + |Leftover(a) + b| / 4 == |a + b| / 4
  {
    if |a| >= 4 {
      LeftoverConcat(a[4..], b);
      GroupsOfConcat(a, b);
    }
  }

  lemma PhaseComposes(m: nat, n: nat, high: bool)
    ensures PhaseAfter(n, PhaseAfter(m, high)) == PhaseAfter(m + n, high)
  {
  }

  lemma WholeGroups(a: seq<byte>, b: seq<byte>, high: bool, carrier: Carrier)
    requires |a| % 4 == 0
    ensures Pack(a + b, high, carrier) == Pack(a, high, carrier) + Pack(b, PhaseAfter(|a| / 4, high), carrier)
  {
    PackConcat(a, b, high, carrier);
    LeftoverIsTail(a);
    assert Leftover(a) + b == b;
  }

  lemma PackOneGroup(group: seq<byte>, high: bool, carrier: Carrier)
    requires |group| == 4
    ensures Pack(group, high, carrier) == Frame(group, high, carrier)
  {
    assert group + [] == group;
    PackCons(group, [], high, carrier);
  }

  lemma PackOneMore(data: seq<byte>, frames: nat, high: bool, carrier: Carrier)
    requires 4 * frames + 4 <= |data|
    ensures Pack(data[..4 * frames + 4], high, carrier)
         == Pack(data[..4 * frames], high, carrier)
          + Frame(data[4 * frames..4 * frames + 4], PhaseAfter(frames, high), carrier)
  {
    var a, b := data[..4 * frames], data[4 * frames..4 * frames + 4];
    assert data[..4 * frames + 4] == a + b;
    WholeGroups(a, b, high, carrier);
    PackOneGroup(b, PhaseAfter(frames, high), carrier);
  }

  lemma PackIgnoresLeftover(data: seq<byte>, high: bool, carrier: Carrier)
    ensures Pack(Whole(data), high, carrier) == Pack(data, high, carrier)
  {
    LeftoverIsTail(data);
    assert data == Whole(data) + Leftover(data);
    WholeGroups(Whole(data), Leftover(data), high, carrier);
  }

  // ---------------------------------------------------------------------------
  // A strict receiver
  // ---------------------------------------------------------------------------

  /** The two DSD bytes of a word, if it carries the expected marker and padding. */
  function UnpackWord(word: seq<byte>, high: bool, carrier: Carrier): Option<(byte, byte)>
    requires |word| == if carrier.layout.Packed24? then 3 else 4
  {
    if word[2] != Marker(high) || (carrier.layout.S32Lsb24? && word[3] != 0) then None
    else Some((Payload(word[0], carrier.reverse), Payload(word[1], carrier.reverse)))
  }

  function UnpackFrame(frame: seq<byte>, high: bool, carrier: Carrier): (r: Option<seq<byte>>)
    requires |frame| == FramesSize(1, carrier.layout)
    ensures r.Some? ==> |r.value| == 4
  {
    var half := if carrier.layout.Packed24? then 3 else 4;
    match (UnpackWord(frame[..half], high, carrier), UnpackWord(frame[half..], high, carrier))
    case (Some((l0, l1)), Some((r0, r1))) => Some([l0, r0, l1, r1])
    case (_, _) => None
  }

  /** The DSD bytes carried by whole frames whose markers alternate from `high`. */
  function Unpack(out: seq<byte>, high: bool, carrier: Carrier): (r: Option<seq<byte>>)
    ensures r.Some? ==> |r.value| % 4 == 0
    decreases |out|
  {
    var size := FramesSize(1, carrier.layout);
    if out == [] then Some([])
    else if |out| < size then None
    else
      match (UnpackFrame(out[..size], high, carrier), Unpack(out[size..], !high, carrier))
      case (Some(group), Some(rest)) => Some(group + rest)
      case (_, _) => None
  }

  lemma PayloadTwice(b: byte, reverse: bool)
    ensures Payload(Payload(b, reverse), reverse) == b
  {
    ReverseTwice(b);
  }

  lemma UnpackOwnFrame(group: seq<byte>, high: bool, carrier: Carrier)
    requires |group| == 4
    ensures UnpackFrame(Frame(group, high, carrier), high, carrier) == Some(group)
  {
    var half := if carrier.layout.Packed24? then 3 else 4;
    var frame := Frame(group, high, carrier);
    assert frame[..half] == Word(group[0], group[2], high, carrier);
    assert frame[half..] == Word(group[1], group[3], high, carrier);
    PayloadTwice(group[0], carrier.reverse);
    PayloadTwice(group[1], carrier.reverse);
    PayloadTwice(group[2], carrier.reverse);
    PayloadTwice(group[3], carrier.reverse);
    assert [group[0], group[1], group[2], group[3]] == group;
  }

  lemma UnpackCons(frame: seq<byte>, rest: seq<byte>, high: bool, carrier: Carrier)
    requires |frame| == FramesSize(1, carrier.layout)
    requires UnpackFrame(frame, high, carrier).Some? && Unpack(rest, !high, carrier).Some?
    ensures Unpack(frame + rest, high, carrier)
         == Some(UnpackFrame(frame, high, carrier).value + Unpack(rest, !high, carrier).value)
  {
    assert (frame + rest)[..|frame|] == frame && (frame + rest)[|frame|..] == rest;
  }

  /** The strict receiver recovers every whole group, with the same layout, reversal and
      starting marker. */
  lemma {:induction false} UnpackOfPack(bytes: seq<byte>, high: bool, carrier: Carrier)
    ensures Unpack(Pack(bytes, high, carrier), high, carrier) == Some(Whole(bytes))
  {
    if |bytes| >= 4 {
      UnpackOwnFrame(bytes[..4], high, carrier);
      UnpackOfPack(bytes[4..], !high, carrier);
      UnpackCons(Frame(bytes[..4], high, carrier), Pack(bytes[4..], !high, carrier), high, carrier);
    }
  }

  lemma FrameOfUnpacked(frame: seq<byte>, high: bool, carrier: Carrier)
    requires |frame| == FramesSize(1, carrier.layout)
    requires UnpackFrame(frame, high, carrier).Some?
    ensures Frame(UnpackFrame(frame, high, carrier).value, high, carrier) == frame
  {
    var half := if carrier.layout.Packed24? then 3 else 4;
    var left, right := frame[..half], frame[half..];
    PayloadTwice(left[0], carrier.reverse);
    PayloadTwice(left[1], carrier.reverse);
    PayloadTwice(right[0], carrier.reverse);
    PayloadTwice(right[1], carrier.reverse);
    assert frame == left + right;
    assert left == Word(Payload(left[0], carrier.reverse), Payload(left[1], carrier.reverse), high, carrier);
    assert right == Word(Payload(right[0], carrier.reverse), Payload(right[1], carrier.reverse), high, carrier);
  }

  lemma PackNothing(high: bool, carrier: Carrier)
    ensures Pack([], high, carrier) == []
  {
  }

  /** Nothing else is accepted: a stream the strict receiver accepts is the packing of what
      it recovers. */
  lemma {:induction false} PackOfUnpack(out: seq<byte>, high: bool, carrier: Carrier)
    requires Unpack(out, high, carrier).Some?
    ensures Pack(Unpack(out, high, carrier).value, high, carrier) == out
    decreases |out|
  {
    hide Frame, UnpackFrame, Pack;
    if out == [] {
      PackNothing(high, carrier);
    } else {
      var size := FramesSize(1, carrier.layout);
      var group := UnpackFrame(out[..size], high, carrier).value;
      var rest := Unpack(out[size..], !high, carrier).value;
      FrameOfUnpacked(out[..size], high, carrier);
      PackOfUnpack(out[size..], !high, carrier);
      PackCons(group, rest, high, carrier);
      assert out == out[..size] + out[size..];
    }
  }

  function FrameOf(out: seq<byte>, layout: Layout, k: nat): seq<byte>
    requires FramesSize(k + 1, layout) <= |out|
  {
    out[FramesSize(k, layout)..FramesSize(k + 1, layout)]
  }

  lemma SliceMiddle(x: seq<byte>, y: seq<byte>, z: seq<byte>)
    ensures (x + (y + z))[|x|..|x| + |y|] == y
  {
  }

  lemma SplitAtGroup(bytes: seq<byte>, high: bool, carrier: Carrier, k: nat)
    requires k < |bytes| / 4
    ensures Pack(bytes, high, carrier)
         == Pack(bytes[..4 * k], high, carrier)
          + (Frame(bytes[4 * k..4 * k + 4], PhaseAfter(k, high), carrier)
             + Pack(bytes[4 * k + 4..], !PhaseAfter(k, high), carrier))
  {
    var a, group, rest := bytes[..4 * k], bytes[4 * k..4 * k + 4], bytes[4 * k + 4..];
    assert bytes == a + (group + rest);
    WholeGroups(a, group + rest, high, carrier);
    PackCons(group, rest, PhaseAfter(k, high), carrier);
  }

  lemma FrameInside(x: seq<byte>, y: seq<byte>, z: seq<byte>, layout: Layout, k: nat)
    requires |x| == FramesSize(k, layout) && |y| == FramesSize(1, layout)
    ensures FramesSize(k + 1, layout) <= |x + (y + z)|
    ensures FrameOf(x + (y + z), layout, k) == y
  {
    SliceMiddle(x, y, z);
  }

  /** Frame `k` of the output is the frame of group `k`, marked by the parity of `k`. */
  lemma FrameAt(bytes: seq<byte>, high: bool, carrier: Carrier, k: nat)
    requires k < |bytes| / 4
    ensures FramesSize(k + 1, carrier.layout) <= |Pack(bytes, high, carrier)|
    ensures FrameOf(Pack(bytes, high, carrier), carrier.layout, k)
         == Frame(bytes[4 * k..4 * k + 4], PhaseAfter(k, high), carrier)
  {
    hide Pack, Frame, PhaseAfter, FrameOf;
    PackSize(bytes[..4 * k], high, carrier);
    SplitAtGroup(bytes, high, carrier, k);
    FrameInside(Pack(bytes[..4 * k], high, carrier), Frame(bytes[4 * k..4 * k + 4], PhaseAfter(k, high), carrier),
                Pack(bytes[4 * k + 4..], !PhaseAfter(k, high), carrier), carrier.layout, k);
  }

  /** The two markers of the six- or eight-byte frame `k`. */
  predicate CarriesMarker(out: seq<byte>, layout: Layout, k: nat, marker: byte) {
    if layout.Packed24? then 6 * k + 5 < |out| && out[6 * k + 2] == marker && out[6 * k + 5] == marker
    else 8 * k + 6 < |out| && out[8 * k + 2] == marker && out[8 * k + 6] == marker
  }

  /** The words of frame `k` both carry 0x05 or 0xFA, by the parity of `k` and the phase before. */
  lemma MarkersAlternate(bytes: seq<byte>, high: bool, carrier: Carrier, k: nat)
    requires k < |bytes| / 4
    ensures CarriesMarker(Pack(bytes, high, carrier), carrier.layout, k, if high == (k % 2 == 0) then 0xFA else 0x05)
  {
    hide Pack, Frame, FrameOf, CarriesMarker, WordsOf, Reverse, PhaseAfter;
    var out, group := Pack(bytes, high, carrier), bytes[4 * k..4 * k + 4];
    var marker: byte := if high == (k % 2 == 0) then 0xFA else 0x05;
    FrameAt(bytes, high, carrier, k);
    ParityOf(k, high);
    FrameIsWords(group, PhaseAfter(k, high), carrier);
    if carrier.reverse {
      FrameCarries(out, k, carrier.layout, marker, Reverse(group[0]), Reverse(group[2]), Reverse(group[1]), Reverse(group[3]));
    } else {
      FrameCarries(out, k, carrier.layout, marker, group[0], group[2], group[1], group[3]);
    }
  }

  lemma FrameCarries(out: seq<byte>, k: nat, layout: Layout, marker: byte, l0: byte, l1: byte, r0: byte, r1: byte)
    requires FramesSize(k + 1, layout) <= |out| && FrameOf(out, layout, k) == WordsOf(layout, marker, l0, l1, r0, r1)
    ensures CarriesMarker(out, layout, k, marker)
  {
    var words := WordsOf(layout, marker, l0, l1, r0, r1);
    var from := FramesSize(k, layout);
    assert out[from + 2] == FrameOf(out, layout, k)[2] == words[2];
    assert out[from + |words| / 2 + 2] == FrameOf(out, layout, k)[|words| / 2 + 2] == words[|words| / 2 + 2];
  }

  /** Both words of a frame, byte by byte. */
  function WordsOf(layout: Layout, marker: byte, l0: byte, l1: byte, r0: byte, r1: byte): seq<byte> {
    match layout
    case Packed24 => [l0, l1, marker, r0, r1, marker]
    case S32Lsb24 => [l0, l1, marker, 0, r0, r1, marker, 0]
  }

  /** They are the `k`-th ones of `out`. */
  ghost predicate Marked(out: seq<byte>, k: nat, layout: Layout, marker: byte, l0: byte, l1: byte, r0: byte, r1: byte) {
    var size := if layout.Packed24? then 6 else 8;
    size * k + size <= |out| && out[size * k..size * k + size] == WordsOf(layout, marker, l0, l1, r0, r1)
  }

  lemma FrameIsWords(group: seq<byte>, high: bool, carrier: Carrier)
    requires |group| == 4
    ensures var marker: byte := if high then 0xFA else 0x05;
            Frame(group, high, carrier)
            == if carrier.reverse then WordsOf(carrier.layout, marker, Reverse(group[0]), Reverse(group[2]), Reverse(group[1]), Reverse(group[3]))
               else WordsOf(carrier.layout, marker, group[0], group[2], group[1], group[3])
  {
    hide Reverse;
  }

  lemma FrameIsMarked(out: seq<byte>, k: nat, layout: Layout, marker: byte, l0: byte, l1: byte, r0: byte, r1: byte)
    requires FramesSize(k + 1, layout) <= |out| && FrameOf(out, layout, k) == WordsOf(layout, marker, l0, l1, r0, r1)
    ensures Marked(out, k, layout, marker, l0, l1, r0, r1)
  {
    hide WordsOf;
  }

  lemma ParityOf(k: nat, high: bool)
    ensures PhaseAfter(k, high) == (high == (k % 2 == 0))
  {
  }

  /** Frame `k` byte by byte: for each channel the earlier and the later payload byte, 0x05 or
      0xFA by the parity of `k`, and a zero byte in the 32-bit layout. */
  lemma FrameBytes(bytes: seq<byte>, carrier: Carrier, k: nat)
    requires k < |bytes| / 4
    ensures var out := Pack(bytes, false, carrier);
            var marker: byte := if k % 2 == 0 then 0x05 else 0xFA;
            var l0, r0, l1, r1 := bytes[4 * k], bytes[4 * k + 1], bytes[4 * k + 2], bytes[4 * k + 3];
            if carrier.reverse then Marked(out, k, carrier.layout, marker, Reverse(l0), Reverse(l1), Reverse(r0), Reverse(r1))
            else Marked(out, k, carrier.layout, marker, l0, l1, r0, r1)
  {
    hide Pack, Frame, FrameOf, Marked, WordsOf, Reverse, PhaseAfter;
    var out, group := Pack(bytes, false, carrier), bytes[4 * k..4 * k + 4];
    var marker: byte := if k % 2 == 0 then 0x05 else 0xFA;
    FrameAt(bytes, false, carrier, k);
    ParityOf(k, false);
    FrameIsWords(group, PhaseAfter(k, false), carrier);
    if carrier.reverse {
      FrameIsMarked(out, k, carrier.layout, marker, Reverse(group[0]), Reverse(group[2]), Reverse(group[1]), Reverse(group[3]));
    } else {
      FrameIsMarked(out, k, carrier.layout, marker, group[0], group[2], group[1], group[3]);
    }
  }
}
