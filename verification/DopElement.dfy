/** The GStreamer element around the packer: its properties, caps, lifecycle and events.
    Buffers are byte strings and caps are (rate, format) pairs. */
module DopElement {
  import opened Wrappers
  import opened Octets
  import opened DopPacking

  const USIZE_MAX: nat := 0xFFFF_FFFF_FFFF_FFFF

  datatype Flow = FlowOk | FlowError | NotNegotiated

  /** The guarded state of the element. */
  datatype State = State(phaseHigh: bool, carry: seq<byte>, layout: Option<Layout>, reverse: bool,
                         locked: bool, inputRate: Option<int>, outputRate: Option<int>)

  const FRESH := State(false, [], None, false, false, None, None)

  /** i32 division by two, truncating toward zero. */
  function HalfRate(rate: int): int {
    if rate >= 0 then rate / 2 else -((0 - rate) / 2)
  }

  function LayoutOf(format: string): Option<Layout> {
    if format == "S24_3LE" then Some(Packed24) else if format == "S32LE" then Some(S32Lsb24) else None
  }

  /** The caps the element accepts: both rates present, carrier at half the byte rate, and a
      known output format. */
  predicate CapsAccepted(inRate: Option<int>, outRate: Option<int>, format: Option<string>) {
    inRate.Some? && outRate.Some? && HalfRate(inRate.value) == outRate.value
    && format.Some? && LayoutOf(format.value).Some?
  }

  /** The output size of a buffer of `size` bytes, None when the arithmetic overflows. */
  function SizeFor(s: State, size: nat): Option<nat> {
    if s.layout.None? || size + |s.carry| > USIZE_MAX then None
    else
      var bytes := FramesSize((size + |s.carry|) / 4, s.layout.value);
      if bytes > USIZE_MAX then None else Some(bytes)
  }

  function Reset(s: State): State {
    s.(carry := [], phaseHigh := false)
  }

  /** The state a buffer is packed from. */
  function Entered(s: State, discont: bool): State {
    if discont then Reset(s) else s
  }

  /** Everything a buffer is packed from: what was carried and what arrived. */
  function Data(s: State, input: seq<byte>, discont: bool): seq<byte> {
    Entered(s, discont).carry + input
  }

  /** The call fails exactly when the whole frames do not fit the output. */
  function Outcome(s: State, input: seq<byte>, discont: bool, capacity: nat): Flow {
    if s.layout.None? then NotNegotiated
    else if FramesSize(|Data(s, input, discont)| / 4, s.layout.value) <= capacity then FlowOk
    else FlowError
  }

  /** A failed call keeps the carried bytes of its entry, has consumed nothing, and has
      toggled the phase for every frame that did fit. */
  function After(s: State, input: seq<byte>, discont: bool, capacity: nat): State {
    var start := Entered(s, discont);
    var data := Data(s, input, discont);
    match Outcome(s, input, discont, capacity)
    case NotNegotiated => s
    case FlowOk => start.(carry := Leftover(data), phaseHigh := PhaseAfter(|data| / 4, start.phaseHigh))
    case FlowError =>
      start.(phaseHigh := PhaseAfter(capacity / FramesSize(1, s.layout.value), start.phaseHigh))
  }

  function Emitted(s: State, input: seq<byte>, discont: bool): seq<byte>
    requires s.layout.Some?
  {
    Pack(Data(s, input, discont), Entered(s, discont).phaseHigh, Carrier(s.layout.value, s.reverse))
  }

  lemma OutcomeIs(s: State, input: seq<byte>, discont: bool, capacity: nat)
    ensures Outcome(s, input, discont, capacity) == NotNegotiated <==> s.layout.None?
    ensures s.layout.Some? ==>
              var bytes := (if discont then 0 else |s.carry|) + |input|;
              (Outcome(s, input, discont, capacity) == FlowOk <==>
                 (if s.layout == Some(Packed24) then 6 else 8) * (bytes / 4) <= capacity)
  {
  }

  lemma EmittedAlternates(s: State, input: seq<byte>, discont: bool)
    requires s.layout.Some?
    ensures var high := s.phaseHigh && !discont;
            forall k :: 0 <= k < |Data(s, input, discont)| / 4 ==>
              CarriesMarker(Emitted(s, input, discont), s.layout.value, k, if high == (k % 2 == 0) then 0xFA else 0x05)
  {
    hide CarriesMarker, Pack;
    forall k | 0 <= k < |Data(s, input, discont)| / 4 {
      MarkersAlternate(Data(s, input, discont), Entered(s, discont).phaseHigh, Carrier(s.layout.value, s.reverse), k);
    }
  }

  /** What can happen to the element. */
  datatype Event =
    | SetReverse(enabled: bool)
    | Start(parentStarts: bool)
    | Stop
    | SetCaps(inRate: Option<int>, outRate: Option<int>, format: Option<string>)
    | Flush
    | EndOfStream
    | Buffer(input: seq<byte>, discont: bool, capacity: nat)

  function Next(s: State, e: Event): State {
    match e
    case SetReverse(enabled) => if s.locked then s else Reset(s).(reverse := enabled)
    case Start(parentStarts) => s.(locked := s.locked || parentStarts)
    case Stop => Reset(s).(locked := false)
    case SetCaps(inRate, outRate, format) =>
      if !CapsAccepted(inRate, outRate, format) then s
      else Reset(s).(layout := LayoutOf(format.value), inputRate := inRate, outputRate := outRate)
    case Flush => Reset(s)
    case EndOfStream => s
    case Buffer(input, discont, capacity) => After(s, input, discont, capacity)
  }

  predicate EndAccepted(s: State) {
    s.carry == []
  }

  /** After `frames` frames and `index` input bytes, `group` is what is waiting. */
  ghost predicate Gathered(data: seq<byte>, carried: nat, input: seq<byte>, index: nat, frames: nat, group: seq<byte>) {
    && index <= |input| && carried + |input| == |data| && data[carried..] == input
    && carried + index == 4 * frames + |group|
    && group == data[4 * frames..4 * frames + |group|]
  }

  lemma GatheredOneMore(data: seq<byte>, carried: nat, input: seq<byte>, index: nat, frames: nat, group: seq<byte>)
    requires Gathered(data, carried, input, index, frames, group) && index < |input|
    ensures Gathered(data, carried, input, index + 1, frames, group + [input[index]])
  {
    var at := 4 * frames + |group|;
    assert data[at] == data[carried..][index];
    assert data[4 * frames..at + 1] == data[4 * frames..at] + [data[at]];
  }

  /** `out` is the first `frames` frames of `data`, and `phase` the phase after them. */
  ghost predicate PackedUpTo(out: seq<byte>, data: seq<byte>, frames: nat, high: bool, phase: bool, carrier: Carrier) {
    && 4 * frames <= |data|
    && |out| == FramesSize(frames, carrier.layout)
    && out == Pack(data[..4 * frames], high, carrier)
    && phase == PhaseAfter(frames, high)
  }

  lemma PackedOneMore(out: seq<byte>, data: seq<byte>, frames: nat, high: bool, phase: bool, carrier: Carrier)
    requires PackedUpTo(out, data, frames, high, phase, carrier) && 4 * frames + 4 <= |data|
    ensures PackedUpTo(out + Frame(data[4 * frames..4 * frames + 4], phase, carrier), data, frames + 1, high, !phase, carrier)
  {
    PackOneMore(data, frames, high, carrier);
  }

  /** What packing `data` into `capacity` bytes leaves: the output and the leftover, or a
      failure with the phase toggled for every frame that fits. */
  ghost predicate PackedWhole(data: seq<byte>, capacity: nat, high: bool, carrier: Carrier,
                              fits: bool, out: seq<byte>, group: seq<byte>, phase: bool) {
    && fits == (FramesSize(|data| / 4, carrier.layout) <= capacity)
    && (fits ==> out == Pack(data, high, carrier) && group == Leftover(data))
    && phase == PhaseAfter(if fits then |data| / 4 else capacity / FramesSize(1, carrier.layout), high)
  }

  lemma PackedAll(out: seq<byte>, data: seq<byte>, carried: nat, input: seq<byte>, frames: nat, group: seq<byte>,
                  capacity: nat, high: bool, phase: bool, carrier: Carrier)
    requires PackedUpTo(out, data, frames, high, phase, carrier) && |out| <= capacity
    requires Gathered(data, carried, input, |input|, frames, group) && |group| < 4
    ensures PackedWhole(data, capacity, high, carrier, true, out, group, phase)
  {
    LeftoverIsTail(data);
    assert frames == |data| / 4 && |group| == |data| % 4;
    assert data[..4 * frames] == Whole(data);
    PackIgnoresLeftover(data, high, carrier);
  }

  lemma PackedTooSmall(out: seq<byte>, data: seq<byte>, frames: nat, group: seq<byte>,
                       capacity: nat, high: bool, phase: bool, carrier: Carrier)
    requires PackedUpTo(out, data, frames, high, phase, carrier) && 4 * frames + 4 <= |data|
    requires |out| <= capacity < |out| + FramesSize(1, carrier.layout)
    ensures PackedWhole(data, capacity, high, carrier, false, out, group, phase)
  {
    TooSmall(frames, |data|, capacity, carrier.layout);
  }

  lemma TooSmall(frames: nat, total: nat, capacity: nat, layout: Layout)
    requires 4 * frames + 4 <= total
    requires FramesSize(frames, layout) <= capacity < FramesSize(frames, layout) + FramesSize(1, layout)
    ensures FramesSize(total / 4, layout) > capacity
    ensures capacity / FramesSize(1, layout) == frames
  {
    assert total / 4 >= frames + 1;
  }

  class MichiDop {
    var phaseHigh: bool
    var pending: seq<byte>
    var pendingLen: nat
    var layout: Option<Layout>
    var reversePayloadBits: bool
    var locked: bool
    var inputRate: Option<int>
    var outputRate: Option<int>

    ghost predicate Valid()
      reads this
    {
      |pending| == 4 && pendingLen < 4
    }

    ghost function View(): State
      reads this
      requires Valid()
    {
      State(phaseHigh, pending[..pendingLen], layout, reversePayloadBits, locked, inputRate, outputRate)
    }

    constructor ()
      ensures Valid() && View() == FRESH
    {
      phaseHigh, pending, pendingLen := false, [0, 0, 0, 0], 0;
      layout, reversePayloadBits, locked := None, false, false;
      inputRate, outputRate := None, None;
    }

    method SetReversePayloadBits(enabled: bool)
      requires Valid()
      modifies this
      ensures Valid()
      ensures View() == Next(old(View()), SetReverse(enabled))
      ensures View() == if old(locked) then old(View())
                        else old(View()).(carry := [], phaseHigh := false, reverse := enabled)
    {
      if locked {
        return;
      }
      reversePayloadBits := enabled;
      pendingLen := 0;
      phaseHigh := false;
    }

    method Start(parentStarts: bool)
      requires Valid()
      modifies this
      ensures Valid()
      ensures View() == Next(old(View()), Event.Start(parentStarts))
      ensures View() == old(View()).(locked := old(locked) || parentStarts)
    {
      if parentStarts {
        locked := true;
      }
    }

    method Stop()
      requires Valid()
      modifies this
      ensures Valid() && View() == Next(old(View()), Event.Stop)
      ensures View() == old(View()).(carry := [], phaseHigh := false, locked := false)
    {
      locked := false;
      pendingLen := 0;
      phaseHigh := false;
    }

    method SetCaps(inRate: Option<int>, outRate: Option<int>, format: Option<string>) returns (ok: bool)
      requires Valid()
      modifies this
      ensures Valid() && ok == CapsAccepted(inRate, outRate, format)
      ensures View() == Next(old(View()), Event.SetCaps(inRate, outRate, format))
      ensures ok <==> inRate.Some? && outRate.Some? && format.Some? && (format.value == "S24_3LE" || format.value == "S32LE")
                      && outRate.value == (if inRate.value >= 0 then inRate.value / 2 else -(-inRate.value / 2))
      ensures View() == if !ok then old(View())
                        else old(View()).(layout := Some(if format.value == "S24_3LE" then Packed24 else S32Lsb24),
                                          inputRate := inRate, outputRate := outRate, carry := [], phaseHigh := false)
    {
      if inRate.None? || outRate.None? {
        return false;
      }
      if HalfRate(inRate.value) != outRate.value {
        return false;
      }
      if format.None? {
        return false;
      }
      var chosen := LayoutOf(format.value);
      if chosen.None? {
        return false;
      }
      layout := chosen;
      inputRate, outputRate := inRate, outRate;
      pendingLen := 0;
      phaseHigh := false;
      ok := true;
    }

    method TransformSize(size: nat) returns (bytes: Option<nat>)
      requires Valid()
      ensures bytes == SizeFor(View(), size)
      ensures bytes.None? <==> layout.None? || size + pendingLen > 0xFFFF_FFFF_FFFF_FFFF
                               || (if layout == Some(Packed24) then 6 else 8) * ((size + pendingLen) / 4) > 0xFFFF_FFFF_FFFF_FFFF
      ensures bytes.Some? ==> bytes.value == (if layout == Some(Packed24) then 6 else 8) * ((size + pendingLen) / 4)
    {
      if layout.None? {
        return None;
      }
      var total := size + pendingLen;
      if total > USIZE_MAX {
        return None;
      }
      var frames := total / 4;
      var product := if layout.value.Packed24? then frames * 6 else frames * 8;
      bytes := if product > USIZE_MAX then None else Some(product);
    }

    /** Packs one buffer into `output`. */
    method Transform(input: seq<byte>, discont: bool, output: array<byte>) returns (flow: Flow, written: nat)
      requires Valid()
      modifies this, output
      ensures Valid() && written <= output.Length
      ensures flow == Outcome(old(View()), input, discont, output.Length)
      ensures View() == Next(old(View()), Buffer(input, discont, output.Length))
      ensures flow == FlowOk ==> output[..written] == Emitted(old(View()), input, discont)
      ensures flow == NotNegotiated <==> layout.None?
      ensures layout.Some? ==>
                var bytes := (if discont then 0 else old(pendingLen)) + |input|;
                (flow == FlowOk <==> (if layout == Some(Packed24) then 6 else 8) * (bytes / 4) <= output.Length)
      ensures flow == FlowOk ==>
                var high, carried := old(phaseHigh) && !discont, if discont then 0 else old(pendingLen);
                forall k :: 0 <= k < (carried + |input|) / 4 ==>
                  CarriesMarker(output[..written], layout.value, k, if high == (k % 2 == 0) then 0xFA else 0x05)
    {
      hide CarriesMarker, Pack, Leftover;
      ghost var before := View();
      OutcomeIs(before, input, discont, output.Length);
      if layout.Some? {
        EmittedAlternates(before, input, discont);
      }
      written := 0;
      if layout.None? {
        flow := NotNegotiated;
        return;
      }
      if discont {
        pendingLen := 0;
        phaseHigh := false;
      }
      var fits, buffered, filled, high;
      fits, written, buffered, filled, high :=
        PackLoop(input, output, pending, pendingLen, phaseHigh, Carrier(layout.value, reversePayloadBits));
      phaseHigh := high;
      if !fits {
        flow := FlowError;
        return;
      }
      pending := buffered;
      pendingLen := filled;
      flow := FlowOk;
    }

    /** The two nested loops of the packer, on the locals they update. */
    static method PackLoop(input: seq<byte>, output: array<byte>, group: seq<byte>, carried: nat, high: bool, carrier: Carrier)
      returns (fits: bool, written: nat, buffered: seq<byte>, filled: nat, high': bool)
      requires |group| == 4 && carried < 4
      modifies output
      ensures written <= output.Length && |buffered| == 4 && filled < 4
      ensures PackedWhole(group[..carried] + input, output.Length, high, carrier,
                          fits, output[..written], buffered[..filled], high')
    {
      ghost var data := group[..carried] + input;
      buffered, filled, written, high' := group, carried, 0, high;
      var index: nat := 0;
      ghost var frames: nat := 0;
      assert data[..0] == [];
      while filled == 4 || index < |input|
        invariant |buffered| == 4 && filled < 4 && written <= output.Length
        invariant Gathered(data, carried, input, index, frames, buffered[..filled])
        invariant PackedUpTo(output[..written], data, frames, high, high', carrier)
        decreases |input| - index
      {
        buffered, filled, index := Gather(data, carried, input, index, frames, buffered, filled);
        if filled < 4 {
          break;
        }
        assert buffered[..4] == buffered;
        if written + FramesSize(1, carrier.layout) > output.Length {
          fits, filled := false, carried;
          PackedTooSmall(output[..written], data, frames, buffered[..filled], output.Length, high, high', carrier);
          return;
        }
        PackedOneMore(output[..written], data, frames, high, high', carrier);
        written := WriteFrame(output, written, buffered, high', carrier);
        high' := !high';
        filled := 0;
        frames := frames + 1;
      }
      PackedAll(output[..written], data, carried, input, frames, buffered[..filled],
                output.Length, high, high', carrier);
      fits := true;
    }

    /** Moves input bytes into the four-byte group until it is full or the input ends. */
    static method Gather(ghost data: seq<byte>, ghost carried: nat, input: seq<byte>, index: nat,
                         ghost frames: nat, buffered: seq<byte>, filled: nat)
      returns (buffered': seq<byte>, filled': nat, index': nat)
      requires |buffered| == 4 && filled < 4
      requires Gathered(data, carried, input, index, frames, buffered[..filled])
      ensures |buffered'| == 4 && filled' <= 4 && index <= index'
      ensures Gathered(data, carried, input, index', frames, buffered'[..filled'])
      ensures filled' == 4 || index' == |input|
      ensures index < |input| ==> index < index'
    {
      buffered', filled', index' := buffered, filled, index;
      while filled' < 4 && index' < |input|
        invariant |buffered'| == 4 && filled' <= 4 && index <= index'
        invariant Gathered(data, carried, input, index', frames, buffered'[..filled'])
        invariant filled' == filled + (index' - index)
      {
        ghost var before := buffered'[..filled'];
        GatheredOneMore(data, carried, input, index', frames, before);
        buffered' := buffered'[filled' := input[index']];
        assert buffered'[..filled' + 1] == before + [input[index']];
        filled' := filled' + 1;
        index' := index' + 1;
      }
    }

    /** Stores the two marked words of a group and returns the position after them. */
    static method WriteFrame(output: array<byte>, at: nat, group: seq<byte>, high: bool, carrier: Carrier)
      returns (next: nat)
      requires |group| == 4 && at + FramesSize(1, carrier.layout) <= output.Length
      modifies output
      ensures next == at + FramesSize(1, carrier.layout)
      ensures output[..next] == old(output[..at]) + Frame(group, high, carrier)
    {
      next := WriteWord(output, at, group[0], group[2], high, carrier);
      next := WriteWord(output, next, group[1], group[3], high, carrier);
    }

    /** Stores one channel's marked word and returns the position after it. */
    static method WriteWord(output: array<byte>, at: nat, earlier: byte, later: byte, high: bool, carrier: Carrier)
      returns (next: nat)
      requires at + |Word(earlier, later, high, carrier)| <= output.Length
      modifies output
      ensures next == at + |Word(earlier, later, high, carrier)|
      ensures output[..next] == old(output[..at]) + Word(earlier, later, high, carrier)
    {
      output[at] := Payload(earlier, carrier.reverse);
      output[at + 1] := Payload(later, carrier.reverse);
      output[at + 2] := if high then MARKER_HIGH else MARKER_LOW;
      next := at + 3;
      if carrier.layout == S32Lsb24 {
        output[next] := 0;
        next := next + 1;
      }
      assert output[..at] == old(output[..at]);
      assert output[at..next] == Word(earlier, later, high, carrier);
      assert output[..next] == output[..at] + output[at..next];
    }

    method Flush()
      requires Valid()
      modifies this
      ensures Valid() && View() == Next(old(View()), Event.Flush)
      ensures View() == old(View()).(carry := [], phaseHigh := false)
    {
      pendingLen := 0;
      phaseHigh := false;
    }

    /** End of stream is refused while an incomplete group is pending. */
    method EndOfStream() returns (accepted: bool)
      requires Valid()
      ensures accepted == EndAccepted(View()) == (pendingLen == 0)
    {
      accepted := pendingLen == 0;
    }
  }
}
