/** What the DoP element guarantees over every run of its events. */
module DopRuns {
  import opened Wrappers
  import opened Octets
  import opened DopPacking
  import opened DopElement

  /** What went in and came out since the last reset. */
  datatype Segment = Segment(input: seq<byte>, output: seq<byte>)

  const EMPTY := Segment([], [])

  /** The resets are: an accepted property change, stop, accepted caps, flush and a
      discontinuity on a negotiated element. */
  function Track(g: Segment, s: State, e: Event): Segment {
    match e
    case SetReverse(_) => if s.locked then g else EMPTY
    case Start(_) => g
    case Stop => EMPTY
    case SetCaps(inRate, outRate, format) => if CapsAccepted(inRate, outRate, format) then EMPTY else g
    case Flush => EMPTY
    case EndOfStream => g
    case Buffer(input, discont, capacity) =>
      if Outcome(s, input, discont, capacity) != FlowOk then (if discont && s.layout.Some? then EMPTY else g)
      else
        var base := if discont then EMPTY else g;
        Segment(base.input + input, base.output + Emitted(s, input, discont))
  }

  datatype Run = Run(state: State, segment: Segment)

  function After(events: seq<Event>): Run {
    if events == [] then Run(FRESH, EMPTY)
    else
      var before := After(events[..|events| - 1]);
      var e := events[|events| - 1];
      Run(Next(before.state, e), Track(before.segment, before.state, e))
  }

  /** Every buffer is given the output the element asked for. */
  ghost predicate Sized(s: State, e: Event) {
    e.Buffer? ==> s.layout.None? || (SizeFor(s, |e.input|).Some? && e.capacity == SizeFor(s, |e.input|).value)
  }

  ghost predicate AllSized(events: seq<Event>) {
    forall i :: 0 <= i < |events| ==> Sized(After(events[..i]).state, events[i])
  }

  /** The pending bytes, the phase and the output are functions of the segment's input. */
  ghost predicate InStep(r: Run) {
    && r.state.carry == Leftover(r.segment.input)
    && r.state.phaseHigh == PhaseAfter(|r.segment.input| / 4, false)
    && (r.state.layout.None? ==> r.segment == EMPTY)
    && (r.state.layout.Some? ==>
          r.segment.output == Pack(r.segment.input, false, Carrier(r.state.layout.value, r.state.reverse)))
  }

  lemma FramesSizeMonotone(m: nat, n: nat, layout: Layout)
    requires m <= n
    ensures FramesSize(m, layout) <= FramesSize(n, layout)
  {
  }

  /** With an output of the requested size the call cannot fail; it fills that size exactly,
      or at most that size on a discontinuity. */
  lemma RequestedSizeSuffices(s: State, input: seq<byte>, discont: bool, capacity: nat)
    requires s.layout.Some? && SizeFor(s, |input|) == Some(capacity)
    ensures Outcome(s, input, discont, capacity) == FlowOk
    ensures |Emitted(s, input, discont)| <= capacity
    ensures !discont ==> |Emitted(s, input, discont)| == capacity
  {
    var data := Data(s, input, discont);
    PackSize(data, Entered(s, discont).phaseHigh, Carrier(s.layout.value, s.reverse));
    FramesSizeMonotone(|data| / 4, (|input| + |s.carry|) / 4, s.layout.value);
  }

  lemma GrowsInStep(input: seq<byte>, more: seq<byte>, carrier: Carrier)
    ensures var data := Leftover(input) + more;
            && Leftover(data) == Leftover(input + more)
            && PhaseAfter(|data| / 4, PhaseAfter(|input| / 4, false)) == PhaseAfter(|input + more| / 4, false)
            && Pack(input, false, carrier) + Pack(data, PhaseAfter(|input| / 4, false), carrier)
               == Pack(input + more, false, carrier)
  {
    PackConcat(input, more, false, carrier);
    LeftoverConcat(input, more);
    PhaseComposes(|input| / 4, |Leftover(input) + more| / 4, false);
  }

  lemma BufferStaysInStep(before: Run, input: seq<byte>, discont: bool, capacity: nat)
    requires InStep(before) && before.state.layout.Some?
    requires Outcome(before.state, input, discont, capacity) == FlowOk
    ensures var e := Buffer(input, discont, capacity);
            InStep(Run(Next(before.state, e), Track(before.segment, before.state, e)))
  {
    var base := if discont then EMPTY else before.segment;
    assert Entered(before.state, discont).carry == Leftover(base.input);
    assert base.output == Pack(base.input, false, Carrier(before.state.layout.value, before.state.reverse));
    GrowsInStep(base.input, input, Carrier(before.state.layout.value, before.state.reverse));
  }

  lemma StepStaysInStep(before: Run, e: Event)
    requires InStep(before) && Sized(before.state, e)
    ensures InStep(Run(Next(before.state, e), Track(before.segment, before.state, e)))
  {
    if e.Buffer? && before.state.layout.Some? {
      RequestedSizeSuffices(before.state, e.input, e.discont, e.capacity);
      BufferStaysInStep(before, e.input, e.discont, e.capacity);
    }
  }

  /** Over every run: what is pending, the phase and the output since the last reset are the
      ones obtained by packing that segment's input in a single buffer. */
  lemma {:induction false} RunStaysInStep(events: seq<Event>)
    requires AllSized(events)
    ensures InStep(After(events))
  {
    if events != [] {
      var init := events[..|events| - 1];
      forall i | 0 <= i < |init|
        ensures Sized(After(init[..i]).state, init[i])
      {
        assert init[..i] == events[..i];
      }
      RunStaysInStep(init);
      StepStaysInStep(After(init), events[|events| - 1]);
    }
  }

  /** What a strict receiver recovers from the segment's output: markers alternating from
      0x05, both channels sharing them, one layout and one reversal. */
  function Received(r: Run): Option<seq<byte>>
    requires r.state.layout.Some?
  {
    Unpack(r.segment.output, false, Carrier(r.state.layout.value, r.state.reverse))
  }

  /** Over every run the receiver recovers the input of the segment up to its incomplete
      group. */
  lemma SegmentUnpacks(events: seq<Event>)
    requires AllSized(events) && After(events).state.layout.Some?
    ensures Received(After(events)) == Some(Whole(After(events).segment.input))
  {
    RunStaysInStep(events);
    var r := After(events);
    UnpackOfPack(r.segment.input, false, Carrier(r.state.layout.value, r.state.reverse));
  }

  /** Over every run, byte by byte: the words of frame `k` of the segment's output carry group `k`
      of its input, marked 0x05 for even `k` and 0xFA for odd `k`. */
  lemma SegmentBytes(events: seq<Event>, k: nat)
    requires AllSized(events) && After(events).state.layout.Some? && k < |After(events).segment.input| / 4
    ensures var g, s := After(events).segment, After(events).state;
            var marker: byte := if k % 2 == 0 then 0x05 else 0xFA;
            var l0, r0, l1, r1 := g.input[4 * k], g.input[4 * k + 1], g.input[4 * k + 2], g.input[4 * k + 3];
            && |g.output| == (if s.layout.value.Packed24? then 6 else 8) * (|g.input| / 4)
            && if s.reverse then Marked(g.output, k, s.layout.value, marker, Reverse(l0), Reverse(l1), Reverse(r0), Reverse(r1))
               else Marked(g.output, k, s.layout.value, marker, l0, l1, r0, r1)
  {
    hide Pack, Marked, After, AllSized;
    RunStaysInStep(events);
    var g, s := After(events).segment, After(events).state;
    PackSize(g.input, false, Carrier(s.layout.value, s.reverse));
    FrameBytes(g.input, Carrier(s.layout.value, s.reverse), k);
  }

  lemma WholeIff(input: seq<byte>)
    ensures Leftover(input) == [] <==> Whole(input) == input
  {
    LeftoverIsTail(input);
  }

  /** An end of stream is accepted exactly when every byte since the last reset was emitted. */
  lemma EndAcceptedIff(events: seq<Event>)
    requires AllSized(events) && After(events).state.layout.Some?
    ensures EndAccepted(After(events).state) <==> Received(After(events)) == Some(After(events).segment.input)
  {
    SegmentUnpacks(events);
    RunStaysInStep(events);
    WholeIff(After(events).segment.input);
  }

  // ---------------------------------------------------------------------------
  // Splitting the input
  // ---------------------------------------------------------------------------

  function Flatten(chunks: seq<seq<byte>>): seq<byte> {
    if chunks == [] then [] else chunks[0] + Flatten(chunks[1..])
  }

  /** The state after `input` arrived in one buffer of the requested size. */
  function Fed(s: State, input: seq<byte>): State {
    s.(carry := Leftover(s.carry + input), phaseHigh := PhaseAfter(|s.carry + input| / 4, s.phaseHigh))
  }

  /** The state and the concatenated outputs after feeding the chunks as separate buffers,
      each with an output of the requested size. */
  function Feed(s: State, chunks: seq<seq<byte>>): (State, seq<byte>)
    requires s.layout.Some?
    decreases |chunks|
  {
    if chunks == [] then (s, [])
    else
      var capacity := FramesSize((|chunks[0]| + |s.carry|) / 4, s.layout.value);
      var (last, rest) := Feed(Next(s, Buffer(chunks[0], false, capacity)), chunks[1..]);
      (last, Emitted(s, chunks[0], false) + rest)
  }

  lemma BufferOfRequestedSize(s: State, input: seq<byte>)
    requires s.layout.Some?
    ensures Next(s, Buffer(input, false, FramesSize((|input| + |s.carry|) / 4, s.layout.value))) == Fed(s, input)
  {
  }

  lemma TwoBuffersState(s: State, a: seq<byte>, b: seq<byte>)
    ensures Fed(Fed(s, a), b) == Fed(s, a + b)
  {
    assert s.carry + (a + b) == (s.carry + a) + b;
    LeftoverConcat(s.carry + a, b);
    PhaseComposes(|s.carry + a| / 4, |Leftover(s.carry + a) + b| / 4, s.phaseHigh);
  }

  lemma TwoBuffersOutput(s: State, a: seq<byte>, b: seq<byte>)
    requires s.layout.Some?
    ensures Emitted(s, a, false) + Emitted(Fed(s, a), b, false) == Emitted(s, a + b, false)
  {
    assert s.carry + (a + b) == (s.carry + a) + b;
    PackConcat(s.carry + a, b, s.phaseHigh, Carrier(s.layout.value, s.reverse));
  }

  lemma NothingMore(s: State)
    requires s.layout.Some? && |s.carry| < 4
    ensures Fed(s, []) == s && Emitted(s, [], false) == []
  {
    assert s.carry + [] == s.carry && Leftover(s.carry) == s.carry;
  }

  /** Where the input is cut into buffers makes no difference to the output, the pending
      bytes or the phase. */
  lemma {:induction false} SplitInvariant(s: State, chunks: seq<seq<byte>>)
    requires s.layout.Some? && |s.carry| < 4
    ensures Feed(s, chunks) == (Fed(s, Flatten(chunks)), Emitted(s, Flatten(chunks), false))
    decreases |chunks|
  {
    if chunks == [] {
      NothingMore(s);
    } else {
      BufferOfRequestedSize(s, chunks[0]);
      LeftoverIsTail(s.carry + chunks[0]);
      SplitInvariant(Fed(s, chunks[0]), chunks[1..]);
      TwoBuffersState(s, chunks[0], Flatten(chunks[1..]));
      TwoBuffersOutput(s, chunks[0], Flatten(chunks[1..]));
    }
  }

  // ---------------------------------------------------------------------------
  // The error exit
  // ---------------------------------------------------------------------------

  /** An output that is too small leaves the element in step with what was delivered exactly
      when an even number of frames did fit: otherwise the next frame repeats a marker. */
  lemma ErrorKeepsStepIff(before: Run, input: seq<byte>, discont: bool, capacity: nat)
    requires InStep(before) && before.state.layout.Some?
    requires Outcome(before.state, input, discont, capacity) == FlowError
    ensures var e := Buffer(input, discont, capacity);
            InStep(Run(Next(before.state, e), Track(before.segment, before.state, e)))
            <==> capacity / FramesSize(1, before.state.layout.value) % 2 == 0
  {
  }
}
