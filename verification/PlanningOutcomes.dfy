/** When a Direct plan is made, what is in it, and when each refusal is given. */
module PlanningOutcomes {
  import opened Wrappers
  import opened Texts
  import opened CarrierPlanning
  import Observed = DeviceObservations

  // ---------------------------------------------------------------------------
  // The facts, in the order they are asked for
  // ---------------------------------------------------------------------------

  ghost predicate DeviceNamed(f: Facts) {
    f.device.Some? && |f.device.value| > 0
  }

  ghost predicate EngineSettled(f: Facts) {
    DeviceNamed(f) && f.deviceAvailable && f.profile.Some? && f.engine == "gstreamer"
  }

  ghost predicate PathSettled(f: Facts) {
    EngineSettled(f) && f.profile.value.path in {HardwareDirect, HardwareDirectCompatible}
  }

  ghost predicate BindingSettled(f: Facts) {
    PathSettled(f) && f.binding.Some? && f.binding.value.kind == Observed.AlsaPcm && f.binding.value.currentlyAvailable
  }

  ghost predicate GenerationSettled(f: Facts) {
    BindingSettled(f) && (f.expectedGeneration.None? || f.expectedGeneration.value == f.binding.value.generation)
  }

  /** Blanks around the encoding and the case of its letters do not matter. */
  lemma IsPcmIff(encoding: string)
    ensures IsPcm(encoding) <==>
              exists a, m, b :: encoding == a + m + b && AllBlank(a) && AllBlank(b)
                                && |m| == 3 && m[0] in "Pp" && m[1] in "Cc" && m[2] in "Mm"
  {
    hide Blank, Strip;
    if IsPcm(encoding) {
      var a, b := StripTakesBlanks(encoding);
      var m := Strip(encoding);
      assert Upper(m) == "PCM";
      assert encoding == a + m + b && m[0] in "Pp" && m[1] in "Cc" && m[2] in "Mm" by {
        UppersTo(m, 0, 'P');
        UppersTo(m, 1, 'C');
        UppersTo(m, 2, 'M');
      }
    }
    if a, m, b :| encoding == a + m + b && AllBlank(a) && AllBlank(b)
                  && |m| == 3 && m[0] in "Pp" && m[1] in "Cc" && m[2] in "Mm" {
      LettersAreNotBlank(m[0]);
      LettersAreNotBlank(m[2]);
      StripOf(a, m, b);
      assert Upper(m) == "PCM";
    }
  }

  lemma UppersTo(m: string, i: nat, c: char)
    requires i < |m| && Upper(m)[i] == c && 'A' <= c <= 'Z'
    ensures m[i] == c || m[i] as int == c as int + 32
  {
  }

  lemma LettersAreNotBlank(c: char)
    requires 'A' <= c <= 'Z' || 'a' <= c <= 'z'
    ensures !Blank(c)
  {
  }

  ghost predicate Admissible(f: Facts) {
    GenerationSettled(f) && IsPcm(f.source.encoding) && f.source.channels == 2
  }

  /** Rate and width are known, and the width is one a lossless container is authorized for. */
  ghost predicate Sized(s: Source) {
    s.rate > 0 && s.significantBits.Some? && s.significantBits.value <= 24
  }

  // ---------------------------------------------------------------------------
  // What the evidence says of one container
  // ---------------------------------------------------------------------------

  /** `e` is about the selected device and this container at the rate and channels of the source. */
  ghost predicate Says(f: Facts, e: Evidence, format: string, supported: bool) {
    && e in f.evidence
    && f.device == Some(e.device)
    && e.pcm.rate == f.source.rate && e.pcm.format == format && e.pcm.channels == f.source.channels
    && e.supported == Some(supported)
  }

  ghost predicate Accepted(f: Facts, format: string) {
    exists e :: Says(f, e, format, true)
  }

  ghost predicate RefusedExactly(f: Facts, format: string) {
    !Accepted(f, format) && exists e :: Says(f, e, format, false)
  }

  /** 24 bits in the wide container need a readback that shows them; any other width only must
      not be contradicted by one. */
  ghost predicate BitsKept(f: Facts, format: string, bits: int) {
    if format == "S32_LE" && bits == 24 then
      exists e :: Says(f, e, format, true) && e.pcm.significantBits.Some? && e.pcm.significantBits.value >= 24
    else
      forall e :: Says(f, e, format, true) && e.pcm.significantBits.Some? ==> e.pcm.significantBits.value >= bits
  }

  lemma StateIff(f: Facts, format: string)
    ensures var state := StateOf(f, PcmKey(f.source.rate, format, f.source.channels));
            && (state == Positive <==> Accepted(f, format))
            && (state == Negative <==> RefusedExactly(f, format))
  {
    var key := PcmKey(f.source.rate, format, f.source.channels);
    forall supported
      ensures Claimed(f.evidence, f.device, key, supported) <==> exists e :: Says(f, e, format, supported)
    {
      if i :| 0 <= i < |f.evidence| && Matches(f.evidence[i], f.device, key) && f.evidence[i].supported == Some(supported) {
        assert Says(f, f.evidence[i], format, supported);
      }
      if e :| Says(f, e, format, supported) {
        var i :| 0 <= i < |f.evidence| && f.evidence[i] == e;
        assert Matches(f.evidence[i], f.device, key);
      }
    }
  }

  lemma BitsKeptIff(f: Facts, format: string, bits: int)
    ensures var positive := PositiveFor(f.evidence, f.device, PcmKey(f.source.rate, format, f.source.channels));
            BitsKept(f, format, bits) <==>
              if format == "S32_LE" && bits == 24 then BitsProven(positive, 24) else !BitsRefuted(positive, Some(bits))
  {
    hide PositiveFor;
    var positive := PositiveFor(f.evidence, f.device, PcmKey(f.source.rate, format, f.source.channels));
    forall e
      ensures e in positive <==> Says(f, e, format, true)
    {
      PositiveAreMatches(f.evidence, f.device, PcmKey(f.source.rate, format, f.source.channels), e);
    }
    forall i | 0 <= i < |positive|
      ensures Says(f, positive[i], format, true)
    {
      assert positive[i] in positive;
    }
  }

  // ---------------------------------------------------------------------------
  // The carrier
  // ---------------------------------------------------------------------------

  /** The containers a policy authorizes: the narrowest that holds the width of the source, and
      for at most 16 bits in compatible mode the wide one after it. */
  lemma AuthorizedContainers(s: Source, allow: bool)
    ensures ContainerBits("S16_LE") == 16 && ContainerBits("S32_LE") == 32
    ensures var cs := Candidates(s, allow);
            if !Sized(s) || s.channels <= 0 then cs == []
            else
              var narrow := s.significantBits.value <= 16;
              && |cs| == (if narrow && allow then 2 else 1)
              && cs[0] == Candidate(Pcm(s.rate, if narrow then "S16_LE" else "S32_LE", s.channels, s.significantBits), Exact, 0)
              && (narrow && allow ==> cs[1] == Candidate(Pcm(s.rate, "S32_LE", s.channels, s.significantBits), ContainerWidth, 1))
  {
  }

  /** The container that decides: the wide one only for more than 16 bits, or in compatible mode
      once the narrow one was exactly refused. */
  ghost function Carrier(f: Facts): string
    requires f.profile.Some? && Sized(f.source)
  {
    if f.source.significantBits.value > 16 then "S32_LE"
    else if f.profile.value.path == HardwareDirectCompatible && RefusedExactly(f, "S16_LE") then "S32_LE"
    else "S16_LE"
  }

  lemma ChoiceIs(f: Facts)
    requires f.profile.Some? && Sized(f.source) && f.source.channels > 0
    ensures var format := Carrier(f);
            var adaptation := if f.source.significantBits.value <= 16 && format == "S32_LE" then ContainerWidth else Exact;
            var c := Candidate(Pcm(f.source.rate, format, f.source.channels, f.source.significantBits), adaptation,
                               if adaptation.Exact? then 0 else 1);
            Choose(f, Candidates(f.source, AllowsAdaptation(f)), 0)
            == if Accepted(f, format) then Chosen(c) else if RefusedExactly(f, format) then Exhausted else Undecided(c)
  {
    hide StateOf, Accepted, RefusedExactly;
    var cs := Candidates(f.source, AllowsAdaptation(f));
    AuthorizedContainers(f.source, AllowsAdaptation(f));
    StateIff(f, "S16_LE");
    StateIff(f, "S32_LE");
    NeverBoth(f, "S16_LE");
    NeverBoth(f, "S32_LE");
    if StateOf(f, KeyOf(cs[0].pcm)).Negative? {
      assert Choose(f, cs, 0) == Choose(f, cs, 1);
      assert |cs| == 2 ==> Choose(f, cs, 2) == Exhausted;
    }
  }

  lemma NeverBoth(f: Facts, format: string)
    ensures RefusedExactly(f, format) ==> !Accepted(f, format)
  {
  }

  lemma GateIff(f: Facts)
    ensures Gate(f).None? <==> Admissible(f)
    ensures Gate(f).Some? ==> Gate(f).value.Refused?
  {
    hide IsPcm, Admitted;
  }

  // ---------------------------------------------------------------------------
  // Plans and refusals
  // ---------------------------------------------------------------------------

  /** A plan is made exactly when every fact is settled and the deciding container was accepted
      with the bits kept; what it says is what the profile and the source say. */
  lemma PlannedIff(f: Facts)
    ensures PlanOf(f).Planned? <==>
              Admissible(f) && Sized(f.source) && Accepted(f, Carrier(f)) && BitsKept(f, Carrier(f), f.source.significantBits.value)
    ensures PlanOf(f).Planned? ==>
              var p, profile := PlanOf(f), f.profile.value;
              && Some(p.device) == f.device && Some(p.binding) == f.binding
              && p.requested == Pcm(f.source.rate, Carrier(f), 2, f.source.significantBits)
              && (p.adaptation == ContainerWidth <==> f.source.significantBits.value <= 16 && Carrier(f) == "S32_LE")
              && p.volumePolicy == profile.volumePolicy && p.fallback == profile.fallback
              && p.resyncDelayMs == profile.resyncDelayMs
  {
    hide IsPcm, Candidates, StateOf, Accepted, RefusedExactly, BitsKept, PositiveFor, BitsProven, BitsRefuted, References, Choose,
         Gate, Admitted;
    GateIff(f);
    AuthorizedContainers(f.source, AllowsAdaptation(f));
    if Admissible(f) && Sized(f.source) {
      ChoiceIs(f);
      BitsKeptIff(f, Carrier(f), f.source.significantBits.value);
    }
  }

  ghost function CodeOf(o: Outcome): Option<Code> {
    if o.Refused? then Some(o.code) else None
  }

  /** Each refusal of the facts before the source is asked for its rate. */
  lemma EarlyRefusalIff(f: Facts)
    ensures CodeOf(PlanOf(f)) == Some(SelectedDeviceMissing) <==> !DeviceNamed(f)
    ensures CodeOf(PlanOf(f)) == Some(DeviceUnavailable) <==> DeviceNamed(f) && !f.deviceAvailable
    ensures CodeOf(PlanOf(f)) == Some(PathNotHardwareDirect) <==>
              DeviceNamed(f) && f.deviceAvailable && (if EngineSettled(f) then !PathSettled(f) else f.profile.None?)
    ensures CodeOf(PlanOf(f)) == Some(EngineUnsupported) <==>
              DeviceNamed(f) && f.deviceAvailable && f.profile.Some? && f.engine != "gstreamer"
    ensures CodeOf(PlanOf(f)) == Some(NoAlsaHwBinding) <==> PathSettled(f) && !BindingSettled(f)
    ensures CodeOf(PlanOf(f)) == Some(BindingGenerationChanged) <==> BindingSettled(f) && !GenerationSettled(f)
    ensures CodeOf(PlanOf(f)) == Some(SourceEncodingUnsupported) <==> GenerationSettled(f) && !IsPcm(f.source.encoding)
    ensures CodeOf(PlanOf(f)) == Some(SourceChannelsUnsupported) <==>
              GenerationSettled(f) && IsPcm(f.source.encoding) && f.source.channels != 2
  {
    hide IsPcm, Candidates, StateOf, PositiveFor, BitsProven, BitsRefuted, References, Choose, Admitted;
    if Gate(f).None? && Candidates(f.source, AllowsAdaptation(f)) != [] {
      var choice := Choose(f, Candidates(f.source, AllowsAdaptation(f)), 0);
      if choice.Chosen? {
        ChosenIsPositive(f, Candidates(f.source, AllowsAdaptation(f)), 0);
        CommitRefusesBits(f, f.profile.value, f.binding.value, choice.candidate);
      }
    }
  }

  lemma CommitRefusesBits(f: Facts, profile: Profile, binding: Observed.Binding, c: Candidate)
    requires c.pcm.channels == f.source.channels
    ensures var o := Commit(f, profile, binding, c); o.Refused? ==> o.code == SignificantBitsUnproven
  {
  }

  /** Each refusal once the facts are settled, and the tuple it names. */
  lemma LateRefusalIff(f: Facts)
    requires Admissible(f)
    ensures var o := PlanOf(f);
            var code := if o.Refused? then Some(o.code) else None;
            var strict := f.profile.value.path == HardwareDirect;
            && (code == Some(SourceRateUnknown) <==> !Sized(f.source))
            && (Sized(f.source) ==>
                  var format := Carrier(f);
                  && (code == Some(ExactTupleUnknown) <==> !Accepted(f, format) && !RefusedExactly(f, format))
                  && (code == Some(ExactTupleUnsupported) <==> RefusedExactly(f, format) && strict)
                  && (code == Some(NoCompatibleCarrier) <==> RefusedExactly(f, format) && !strict)
                  && (code == Some(SignificantBitsUnproven) <==>
                        Accepted(f, format) && !BitsKept(f, format, f.source.significantBits.value))
                  && (code in {Some(ExactTupleUnknown), Some(SignificantBitsUnproven)} ==>
                        o.about == Some(PcmKey(f.source.rate, format, 2)))
                  && (code in {Some(ExactTupleUnsupported), Some(NoCompatibleCarrier)} ==>
                        o.about == Some(PcmKey(f.source.rate, if f.source.significantBits.value <= 16 then "S16_LE" else "S32_LE", 2))))
  {
    hide IsPcm, Candidates, StateOf, Accepted, RefusedExactly, BitsKept, PositiveFor, BitsProven, BitsRefuted, References, Choose,
         Gate, Admitted;
    GateIff(f);
    AuthorizedContainers(f.source, AllowsAdaptation(f));
    if Sized(f.source) {
      ChoiceIs(f);
      NeverBoth(f, Carrier(f));
      BitsKeptIff(f, Carrier(f), f.source.significantBits.value);
    }
  }

  ghost predicate Tells(f: Facts, decisions: seq<Decision>) {
    && (EngineGstreamerDirect in decisions <==> EngineSettled(f))
    && (BindingAlsaHwSelected in decisions <==> BindingSettled(f))
    && (SourceNativeRateRequired in decisions <==> GenerationSettled(f) && f.profile.value.ratePolicy == SourceNative)
    && StrictNoResample !in decisions && FixedVolumeSelected !in decisions && FallbackStop !in decisions
  }

  lemma GateTells(f: Facts)
    ensures Gate(f).Some? ==> Tells(f, Gate(f).value.decisions)
    ensures Gate(f).None? ==> Tells(f, Admitted(f))
  {
    hide IsPcm;
  }

  lemma CommitTells(f: Facts, profile: Profile, binding: Observed.Binding, c: Candidate)
    requires Tells(f, Admitted(f)) && Commit(f, profile, binding, c).Refused?
    ensures Tells(f, Commit(f, profile, binding, c).decisions)
  {
    hide EngineSettled, BindingSettled, GenerationSettled, Admitted, PositiveFor, BitsProven, BitsRefuted;
  }

  /** A refusal lists the decisions that were taken before it. */
  lemma RefusalExplainsItself(f: Facts)
    requires PlanOf(f).Refused?
    ensures Tells(f, PlanOf(f).decisions)
  {
    hide Tells, Gate, Admitted, Commit, Candidates, Choose, StateOf;
    GateIff(f);
    GateTells(f);
    var cs := Candidates(f.source, AllowsAdaptation(f));
    if Gate(f).None? && cs != [] && Choose(f, cs, 0).Chosen? {
      CommitTells(f, f.profile.value, f.binding.value, Choose(f, cs, 0).candidate);
    }
  }
}
