/** The Direct output plan: carrier candidates, the planner, and what it refuses. */
module CarrierPlanning {
  import opened Wrappers
  import opened Texts
  import Observed = DeviceObservations

  datatype Pcm = Pcm(rate: int, format: string, channels: int, significantBits: Option<int>)

  datatype PcmKey = PcmKey(rate: int, format: string, channels: int)

  function KeyOf(p: Pcm): PcmKey {
    PcmKey(p.rate, p.format, p.channels)
  }

  /** `supported` is a claim only when it is there. */
  datatype Evidence = Evidence(device: string, pcm: Pcm, supported: Option<bool>, environment: string, reference: string)

  datatype Source = Source(encoding: string, rate: int, significantBits: Option<int>, channels: int)

  // ---------------------------------------------------------------------------
  // Candidates
  // ---------------------------------------------------------------------------

  datatype Adaptation = Exact | ContainerWidth

  datatype Candidate = Candidate(pcm: Pcm, adaptation: Adaptation, priority: nat)

  const NARROW := "S16_LE"
  const WIDE := "S32_LE"
  const MAX_CANDIDATES := 3

  function ExactFormat(bits: int): Option<string> {
    if bits <= 16 then Some(NARROW) else if bits <= 24 then Some(WIDE) else None
  }

  function ContainerBits(format: string): int {
    if format == NARROW then 16 else if format == WIDE then 32 else 0
  }

  function Candidates(s: Source, allowAdaptation: bool): (cs: seq<Candidate>)
    ensures |cs| <= MAX_CANDIDATES
    ensures forall i :: 0 <= i < |cs| ==>
              && cs[i].pcm.rate == s.rate && cs[i].pcm.channels == s.channels
              && cs[i].pcm.significantBits == s.significantBits && s.significantBits.Some?
              && ContainerBits(cs[i].pcm.format) >= s.significantBits.value
    ensures forall i, j :: 0 <= i < j < |cs| ==> KeyOf(cs[i].pcm) != KeyOf(cs[j].pcm)
  {
    if s.significantBits.None? || s.rate <= 0 || s.channels <= 0 then []
    else
      var bits := s.significantBits.value;
      var exact := ExactFormat(bits);
      if exact.None? then []
      else
        [Candidate(Pcm(s.rate, exact.value, s.channels, Some(bits)), Exact, 0)]
        + (if allowAdaptation && bits <= 16 then [Candidate(Pcm(s.rate, WIDE, s.channels, Some(bits)), ContainerWidth, 1)] else [])
  }

  // ---------------------------------------------------------------------------
  // Facts
  // ---------------------------------------------------------------------------

  datatype Path = Desktop | Managed | HardwareDirect | HardwareDirectCompatible
  datatype RatePolicy = SourceNative | System
  datatype VolumePolicy = Fixed | Software | Hardware
  datatype Fallback = Stop | Ask | DesktopDefault | SpecificDevice

  datatype Profile = Profile(path: Path, ratePolicy: RatePolicy, volumePolicy: VolumePolicy, fallback: Fallback, resyncDelayMs: int)

  datatype Facts = Facts(engine: string, profile: Option<Profile>, device: Option<string>, deviceAvailable: bool,
                         binding: Option<Observed.Binding>, expectedGeneration: Option<nat>, source: Source,
                         evidence: seq<Evidence>)

  datatype Decision = EngineGstreamerDirect | BindingAlsaHwSelected | SourceNativeRateRequired | ContainerWidthAdapted
                    | S32CarrierPreserves24Bits | StrictNoResample | StrictNoRemix | FixedVolumeSelected | FallbackStop

  datatype Code = SelectedDeviceMissing | DeviceUnavailable | PathNotHardwareDirect | EngineUnsupported | NoAlsaHwBinding
                | BindingGenerationChanged | SourceEncodingUnsupported | SourceChannelsUnsupported | SourceRateUnknown
                | ExactTupleUnknown | ExactTupleUnsupported | NoCompatibleCarrier | SignificantBitsUnproven

  /** `about` is the exact tuple a refusal names in its detail. */
  datatype Outcome =
    | Planned(device: string, binding: Observed.Binding, requested: Pcm, adaptation: Adaptation, volumePolicy: VolumePolicy,
              fallback: Fallback, resyncDelayMs: int, references: seq<string>, decisions: seq<Decision>)
    | Refused(code: Code, about: Option<PcmKey>, decisions: seq<Decision>)

  // ---------------------------------------------------------------------------
  // Evidence states
  // ---------------------------------------------------------------------------

  predicate Matches(e: Evidence, device: Option<string>, key: PcmKey) {
    device == Some(e.device) && KeyOf(e.pcm) == key
  }

  predicate Claimed(es: seq<Evidence>, device: Option<string>, key: PcmKey, supported: bool) {
    exists i :: 0 <= i < |es| && Matches(es[i], device, key) && es[i].supported == Some(supported)
  }

  datatype EvidenceState = Positive | Negative | Unknown

  function StateOf(f: Facts, key: PcmKey): EvidenceState {
    if Claimed(f.evidence, f.device, key, true) then Positive
    else if Claimed(f.evidence, f.device, key, false) then Negative
    else Unknown
  }

  function PositiveFor(es: seq<Evidence>, device: Option<string>, key: PcmKey): seq<Evidence> {
    if es == [] then []
    else
      PositiveFor(es[..|es| - 1], device, key)
      + (if Matches(es[|es| - 1], device, key) && es[|es| - 1].supported == Some(true) then [es[|es| - 1]] else [])
  }

  function References(es: seq<Evidence>): seq<string> {
    if es == [] then [] else References(es[..|es| - 1]) + [es[|es| - 1].reference]
  }

  // ---------------------------------------------------------------------------
  // The plan
  // ---------------------------------------------------------------------------

  predicate IsDirect(p: Path) {
    p.HardwareDirect? || p.HardwareDirectCompatible?
  }

  predicate Usable(b: Option<Observed.Binding>) {
    b.Some? && b.value.kind.AlsaPcm? && b.value.currentlyAvailable
  }

  predicate IsPcm(encoding: string) {
    Upper(Strip(encoding)) == "PCM"
  }

  /** The first refusal the facts about device, engine, profile, binding and source lead to. */
  function Gate(f: Facts): Option<Outcome> {
    var engine := [EngineGstreamerDirect];
    var bound := engine + [BindingAlsaHwSelected];
    if !Observed.Present(f.device) then Some(Refused(SelectedDeviceMissing, None, []))
    else if !f.deviceAvailable then Some(Refused(DeviceUnavailable, None, []))
    else if f.profile.None? then Some(Refused(PathNotHardwareDirect, None, []))
    else if f.engine != "gstreamer" then Some(Refused(EngineUnsupported, None, []))
    else if !IsDirect(f.profile.value.path) then Some(Refused(PathNotHardwareDirect, None, engine))
    else if !Usable(f.binding) then Some(Refused(NoAlsaHwBinding, None, engine))
    else if f.expectedGeneration.Some? && f.binding.value.generation != f.expectedGeneration.value then
      Some(Refused(BindingGenerationChanged, None, bound))
    else if !IsPcm(f.source.encoding) then Some(Refused(SourceEncodingUnsupported, None, Admitted(f)))
    else if f.source.channels != 2 then Some(Refused(SourceChannelsUnsupported, None, Admitted(f)))
    else None
  }

  function Admitted(f: Facts): seq<Decision> {
    [EngineGstreamerDirect, BindingAlsaHwSelected]
    + (if f.profile.Some? && f.profile.value.ratePolicy.SourceNative? then [SourceNativeRateRequired] else [])
  }

  /** The first candidate that is not exactly refused, from position `i` on. */
  datatype Choice = Chosen(candidate: Candidate) | Undecided(candidate: Candidate) | Exhausted

  function Choose(f: Facts, cs: seq<Candidate>, i: nat): Choice
    requires i <= |cs|
    decreases |cs| - i
  {
    if i == |cs| then Exhausted
    else
      match StateOf(f, KeyOf(cs[i].pcm))
      case Positive => Chosen(cs[i])
      case Negative => Choose(f, cs, i + 1)
      case Unknown => Undecided(cs[i])
  }

  predicate BitsProven(es: seq<Evidence>, bits: int) {
    exists i :: 0 <= i < |es| && es[i].pcm.significantBits.Some? && es[i].pcm.significantBits.value >= bits
  }

  predicate BitsRefuted(es: seq<Evidence>, bits: Option<int>) {
    bits.Some? && exists i :: 0 <= i < |es| && es[i].pcm.significantBits.Some? && es[i].pcm.significantBits.value < bits.value
  }

  predicate NeedsProof(p: Pcm) {
    p.format == WIDE && p.significantBits == Some(24)
  }

  function Commit(f: Facts, profile: Profile, binding: Observed.Binding, c: Candidate): Outcome {
    var positive := PositiveFor(f.evidence, f.device, KeyOf(c.pcm));
    var adapted := Admitted(f) + (if c.adaptation.ContainerWidth? then [ContainerWidthAdapted] else []);
    if NeedsProof(c.pcm) && !BitsProven(positive, 24) then Refused(SignificantBitsUnproven, Some(KeyOf(c.pcm)), adapted)
    else if !NeedsProof(c.pcm) && BitsRefuted(positive, c.pcm.significantBits) then
      Refused(SignificantBitsUnproven, Some(KeyOf(c.pcm)), adapted)
    else
      var kept := adapted + (if NeedsProof(c.pcm) then [S32CarrierPreserves24Bits] else []);
      if c.pcm.channels != f.source.channels then Refused(SourceChannelsUnsupported, None, kept)
      else
        Planned(Observed.Text(f.device), binding, c.pcm, c.adaptation, profile.volumePolicy, profile.fallback, profile.resyncDelayMs,
                References(positive),
                kept + [StrictNoResample, StrictNoRemix]
                + (if profile.volumePolicy.Fixed? then [FixedVolumeSelected] else [])
                + (if profile.fallback.Stop? then [FallbackStop] else []))
  }

  predicate AllowsAdaptation(f: Facts) {
    f.profile.Some? && f.profile.value.path.HardwareDirectCompatible?
  }

  function PlanOf(f: Facts): Outcome {
    if Gate(f).Some? then Gate(f).value
    else
      var cs := Candidates(f.source, AllowsAdaptation(f));
      if cs == [] then Refused(SourceRateUnknown, None, Admitted(f))
      else
        match Choose(f, cs, 0)
        case Chosen(c) => Commit(f, f.profile.value, f.binding.value, c)
        case Undecided(c) => Refused(ExactTupleUnknown, Some(KeyOf(c.pcm)), Admitted(f))
        case Exhausted =>
          Refused(if AllowsAdaptation(f) then NoCompatibleCarrier else ExactTupleUnsupported, Some(KeyOf(cs[0].pcm)), Admitted(f))
  }

  method Plan(f: Facts) returns (o: Outcome)
    ensures o == PlanOf(f)
  {
    hide IsPcm, Candidates, Commit, StateOf;
    var decisions: seq<Decision> := [];
    if !Observed.Present(f.device) {
      return Refused(SelectedDeviceMissing, None, decisions);
    }
    if !f.deviceAvailable {
      return Refused(DeviceUnavailable, None, decisions);
    }
    if f.profile.None? {
      return Refused(PathNotHardwareDirect, None, decisions);
    }
    var profile := f.profile.value;
    if f.engine != "gstreamer" {
      return Refused(EngineUnsupported, None, decisions);
    }
    decisions := decisions + [EngineGstreamerDirect];
    if !IsDirect(profile.path) {
      return Refused(PathNotHardwareDirect, None, decisions);
    }
    if !Usable(f.binding) {
      return Refused(NoAlsaHwBinding, None, decisions);
    }
    decisions := decisions + [BindingAlsaHwSelected];
    if f.expectedGeneration.Some? && f.binding.value.generation != f.expectedGeneration.value {
      return Refused(BindingGenerationChanged, None, decisions);
    }
    if profile.ratePolicy.SourceNative? {
      decisions := decisions + [SourceNativeRateRequired];
    }
    if !IsPcm(f.source.encoding) {
      return Refused(SourceEncodingUnsupported, None, decisions);
    }
    if f.source.channels != 2 {
      return Refused(SourceChannelsUnsupported, None, decisions);
    }
    var candidates := Candidates(f.source, profile.path.HardwareDirectCompatible?);
    if candidates == [] {
      return Refused(SourceRateUnknown, None, decisions);
    }
    for i := 0 to |candidates|
      invariant Choose(f, candidates, 0) == Choose(f, candidates, i)
    {
      match StateOf(f, KeyOf(candidates[i].pcm)) {
        case Positive => return Commit(f, profile, f.binding.value, candidates[i]);
        case Negative =>
        case Unknown => return Refused(ExactTupleUnknown, Some(KeyOf(candidates[i].pcm)), decisions);
      }
    }
    o := Refused(if profile.path.HardwareDirectCompatible? then NoCompatibleCarrier else ExactTupleUnsupported,
                 Some(KeyOf(candidates[0].pcm)), decisions);
  }

  // ---------------------------------------------------------------------------
  // Lossless
  // ---------------------------------------------------------------------------

  lemma {:induction false} ChosenIsPositive(f: Facts, cs: seq<Candidate>, i: nat)
    requires i <= |cs| && Choose(f, cs, i).Chosen?
    ensures Choose(f, cs, i).candidate in cs
    ensures StateOf(f, KeyOf(Choose(f, cs, i).candidate.pcm)).Positive?
    decreases |cs| - i
  {
    hide StateOf;
    if StateOf(f, KeyOf(cs[i].pcm)).Negative? {
      ChosenIsPositive(f, cs, i + 1);
    }
  }

  lemma {:induction false} PositiveAreMatches(es: seq<Evidence>, device: Option<string>, key: PcmKey, e: Evidence)
    ensures e in PositiveFor(es, device, key) <==> e in es && Matches(e, device, key) && e.supported == Some(true)
  {
    if es != [] {
      PositiveAreMatches(es[..|es| - 1], device, key, e);
    }
  }

  /** A plan keeps rate, channels and significant bits of the source, in a container at least
      as wide, on positive evidence for that exact tuple of the selected device; a 24-bit
      source in a 32-bit container only with a readback that proves 24 bits, any other only
      without a readback that refutes its bits. */
  lemma PlanIsLossless(f: Facts)
    requires PlanOf(f).Planned?
    ensures var p := PlanOf(f);
            var pcm := p.requested;
            && Some(p.device) == f.device && Some(p.binding) == f.binding && Usable(f.binding)
            && pcm.rate == f.source.rate && pcm.channels == f.source.channels == 2
            && pcm.significantBits == f.source.significantBits && pcm.significantBits.Some?
            && ContainerBits(pcm.format) >= pcm.significantBits.value
            && Claimed(f.evidence, f.device, KeyOf(pcm), true)
            && (p.adaptation.ContainerWidth? ==> f.profile.value.path.HardwareDirectCompatible? && pcm.significantBits.value <= 16)
            && (if NeedsProof(pcm) then
                  exists e :: e in f.evidence && Matches(e, f.device, KeyOf(pcm)) && e.supported == Some(true)
                              && e.pcm.significantBits.Some? && e.pcm.significantBits.value >= 24
                else
                  forall e :: (e in f.evidence && Matches(e, f.device, KeyOf(pcm)) && e.supported == Some(true)
                               && e.pcm.significantBits.Some?) ==> e.pcm.significantBits.value >= pcm.significantBits.value)
  {
    hide IsPcm, References, PositiveFor;
    var cs := Candidates(f.source, AllowsAdaptation(f));
    ChosenIsPositive(f, cs, 0);
    var pcm := PlanOf(f).requested;
    var positive := PositiveFor(f.evidence, f.device, KeyOf(pcm));
    forall e
      ensures e in positive <==> e in f.evidence && Matches(e, f.device, KeyOf(pcm)) && e.supported == Some(true)
    {
      PositiveAreMatches(f.evidence, f.device, KeyOf(pcm), e);
    }
    if NeedsProof(pcm) {
      var i :| 0 <= i < |positive| && positive[i].pcm.significantBits.Some? && positive[i].pcm.significantBits.value >= 24;
      assert positive[i] in positive;
    }
  }

  lemma {:induction false} ReferencesAre(es: seq<Evidence>, reference: string)
    ensures reference in References(es) <==> exists e :: e in es && e.reference == reference
  {
    if es != [] {
      var init, last := es[..|es| - 1], es[|es| - 1];
      ReferencesAre(init, reference);
      assert last in es;
      if reference in References(init) {
        var e :| e in init && e.reference == reference;
        assert e in es;
      }
    }
  }

  ghost predicate Explains(p: Outcome, ratePolicy: RatePolicy)
    requires p.Planned?
  {
    && (ContainerWidthAdapted in p.decisions <==> p.adaptation.ContainerWidth?)
    && (S32CarrierPreserves24Bits in p.decisions <==> NeedsProof(p.requested))
    && (SourceNativeRateRequired in p.decisions <==> ratePolicy.SourceNative?)
    && (FixedVolumeSelected in p.decisions <==> p.volumePolicy.Fixed?)
    && (FallbackStop in p.decisions <==> p.fallback.Stop?)
    && StrictNoResample in p.decisions && StrictNoRemix in p.decisions
  }

  lemma CommitExplains(f: Facts, profile: Profile, binding: Observed.Binding, c: Candidate)
    requires f.profile == Some(profile) && Commit(f, profile, binding, c).Planned?
    ensures Explains(Commit(f, profile, binding, c), profile.ratePolicy)
  {
    hide References, PositiveFor, BitsProven, BitsRefuted;
  }

  /** The decision codes of a plan say exactly what was decided. */
  lemma PlanExplainsItself(f: Facts)
    requires PlanOf(f).Planned?
    ensures Explains(PlanOf(f), f.profile.value.ratePolicy)
  {
    hide IsPcm, Candidates, StateOf, Commit, Explains;
    var c := Choose(f, Candidates(f.source, AllowsAdaptation(f)), 0).candidate;
    CommitExplains(f, f.profile.value, f.binding.value, c);
  }

  /** A plan refers to exactly the positive evidence it stands on. */
  lemma PlanRefersToItsEvidence(f: Facts, reference: string)
    requires PlanOf(f).Planned?
    ensures reference in PlanOf(f).references <==>
              exists e :: e in f.evidence && Matches(e, f.device, KeyOf(PlanOf(f).requested)) && e.supported == Some(true)
                          && e.reference == reference
  {
    hide IsPcm, References, PositiveFor, Candidates, StateOf, BitsProven, BitsRefuted;
    var positive := PositiveFor(f.evidence, f.device, KeyOf(PlanOf(f).requested));
    ReferencesAre(positive, reference);
    forall e
      ensures e in positive <==> e in f.evidence && Matches(e, f.device, KeyOf(PlanOf(f).requested)) && e.supported == Some(true)
    {
      PositiveAreMatches(f.evidence, f.device, KeyOf(PlanOf(f).requested), e);
    }
  }

  lemma {:induction false} ChooseStops(f: Facts, cs: seq<Candidate>, i: nat, j: nat)
    requires i <= j < |cs|
    requires Choose(f, cs, i).Exhausted? || (forall k :: i <= k <= j ==> cs[k] != Choose(f, cs, i).candidate)
    ensures StateOf(f, KeyOf(cs[j].pcm)).Negative?
    decreases j - i
  {
    hide StateOf;
    if i < j {
      ChooseStops(f, cs, i + 1, j);
    }
  }

  /** Exact refusals are never invented: when a plan is refused for want of a carrier, the
      device has exactly refused every candidate the policy allows. */
  lemma NoCarrierMeansAllRefused(f: Facts, j: nat)
    requires PlanOf(f).Refused? && (PlanOf(f).code.NoCompatibleCarrier? || PlanOf(f).code.ExactTupleUnsupported?)
    requires j < |Candidates(f.source, AllowsAdaptation(f))|
    ensures StateOf(f, KeyOf(Candidates(f.source, AllowsAdaptation(f))[j].pcm)).Negative?
    ensures PlanOf(f).code.NoCompatibleCarrier? <==> AllowsAdaptation(f)
  {
    hide IsPcm, PositiveFor, References, BitsProven, BitsRefuted, Candidates, StateOf;
    ChooseStops(f, Candidates(f.source, AllowsAdaptation(f)), 0, j);
  }

  // ---------------------------------------------------------------------------
  // Compatible refines strict
  // ---------------------------------------------------------------------------

  function WithPath(f: Facts, path: Path): Facts
    requires f.profile.Some?
  {
    f.(profile := Some(f.profile.value.(path := path)))
  }

  lemma SameStates(f: Facts, g: Facts, key: PcmKey)
    requires f.evidence == g.evidence && f.device == g.device
    ensures StateOf(f, key) == StateOf(g, key)
  {
  }

  lemma SameCommit(f: Facts, profile: Profile, path: Path, binding: Observed.Binding, c: Candidate)
    requires f.profile == Some(profile)
    ensures Commit(WithPath(f, path), profile.(path := path), binding, c) == Commit(f, profile, binding, c)
  {
  }

  ghost predicate Refines(f: Facts, s: Outcome, k: Outcome) {
    && (s != k ==> s.Refused? && s.code.ExactTupleUnsupported?)
    && (s.Planned? ==> k == s && s.adaptation.Exact?)
    && (k.Planned? && k.adaptation.ContainerWidth? ==>
          && s.Refused? && s.code.ExactTupleUnsupported?
          && StateOf(f, PcmKey(f.source.rate, NARROW, f.source.channels)).Negative?)
  }

  lemma RefusedExactly(f: Facts, k: Facts, ck: seq<Candidate>)
    requires f.profile.Some? && k == WithPath(f, HardwareDirectCompatible) && Gate(k).None?
    requires ck == Candidates(f.source, true) != [] && StateOf(k, KeyOf(ck[0].pcm)).Negative?
    ensures Refines(f, Refused(ExactTupleUnsupported, Some(KeyOf(ck[0].pcm)), Admitted(k)), PlanOf(k))
  {
    hide IsPcm, PositiveFor, References, StateOf;
    SameStates(f, k, KeyOf(ck[0].pcm));
    assert Choose(k, ck, 0) == Choose(k, ck, 1);
    if f.source.significantBits.value > 16 {
      assert ck == [ck[0]];
    }
  }

  lemma DecidedExactly(f: Facts, s: Facts, k: Facts, c: Candidate)
    requires f.profile.Some? && s == WithPath(f, HardwareDirect) && k == WithPath(f, HardwareDirectCompatible) && Gate(s).None?
    requires Candidates(f.source, false) == [c] && Candidates(f.source, true) != [] && Candidates(f.source, true)[0] == c
    requires c.adaptation.Exact? && !StateOf(s, KeyOf(c.pcm)).Negative?
    ensures PlanOf(k) == PlanOf(s) && (PlanOf(s).Planned? ==> PlanOf(s).adaptation.Exact?)
  {
    hide IsPcm, PositiveFor, References, StateOf, Candidates;
    SameStates(s, k, KeyOf(c.pcm));
    SameCommit(s, s.profile.value, HardwareDirectCompatible, f.binding.value, c);
    assert WithPath(s, HardwareDirectCompatible) == k;
    assert Admitted(s) == Admitted(k) && Gate(k).None?;
    assert Choose(s, [c], 0) == (if StateOf(s, KeyOf(c.pcm)).Positive? then Chosen(c) else Undecided(c));
    assert Choose(k, Candidates(f.source, true), 0) == Choose(s, [c], 0);
  }

  /** Compatible mode differs from strict mode only where strict mode was exactly refused; then
      it plans a wider container or refuses too.  It widens only after an exact refusal of the
      narrow tuple that no evidence contradicts. */
  lemma CompatibleRefinesStrict(f: Facts)
    requires f.profile.Some?
    ensures Refines(f, PlanOf(WithPath(f, HardwareDirect)), PlanOf(WithPath(f, HardwareDirectCompatible)))
  {
    hide IsPcm, PositiveFor, References, StateOf, Commit;
    var s, k := WithPath(f, HardwareDirect), WithPath(f, HardwareDirectCompatible);
    assert Gate(s) == Gate(k) && Admitted(s) == Admitted(k);
    var cs, ck := Candidates(f.source, false), Candidates(f.source, true);
    if Gate(s).Some? {
    } else if cs == [] {
      assert ck == [];
    } else {
      var c := cs[0];
      assert cs == [c] && ck[0] == c;
      SameStates(s, k, KeyOf(c.pcm));
      if StateOf(s, KeyOf(c.pcm)).Negative? {
        assert Choose(s, cs, 0) == Choose(s, cs, 1) == Exhausted;
        RefusedExactly(f, k, ck);
      } else {
        DecidedExactly(f, s, k, c);
      }
    }
  }
}
