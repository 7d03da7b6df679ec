/** Evidence from exact probes, its cache, and the loop of planning and probing. */
module Qualification {
  import opened Wrappers
  import opened CarrierPlanning

  datatype ProbeResult = ProbeResult(requested: Pcm, negotiated: Option<Pcm>, disposition: string, reference: string)

  predicate ExactMatch(requested: Pcm, negotiated: Option<Pcm>) {
    negotiated.Some? && KeyOf(negotiated.value) == KeyOf(requested)
  }

  predicate OpenedExactly(r: ProbeResult) {
    r.disposition == "OPENED" && ExactMatch(r.requested, r.negotiated)
  }

  predicate RefusedExactly(r: ProbeResult) {
    !OpenedExactly(r) && r.disposition == "unsupported_format"
  }

  predicate Conclusive(r: ProbeResult) {
    OpenedExactly(r) || RefusedExactly(r)
  }

  /** `evidence_from`: the readback decides the bits of a positive claim; busy, removed, timeout
      and every other disposition claim nothing. */
  function EvidenceFrom(r: ProbeResult, device: string, environment: string): (e: Evidence)
    ensures e.device == device && e.environment == environment && KeyOf(e.pcm) == KeyOf(r.requested)
    ensures e.supported == (if OpenedExactly(r) then Some(true) else if RefusedExactly(r) then Some(false) else None)
    ensures OpenedExactly(r) ==> e.pcm.significantBits == r.negotiated.value.significantBits
  {
    if OpenedExactly(r) then
      Evidence(device, r.requested.(significantBits := r.negotiated.value.significantBits), Some(true), environment, r.reference)
    else if r.disposition == "unsupported_format" then Evidence(device, r.requested, Some(false), environment, r.reference)
    else Evidence(device, r.requested, None, environment, r.reference)
  }

  /** `probe_for_play`: an environment that changed meanwhile withdraws the claim. */
  function EvidenceOf(r: ProbeResult, device: string, before: string, after: string): Evidence {
    var e := EvidenceFrom(r, device, after);
    if after == before then e else e.(supported := None)
  }

  // ---------------------------------------------------------------------------
  // The cache
  // ---------------------------------------------------------------------------

  type Cache = map<string, seq<Evidence>>

  function Cached(c: Cache, device: string): seq<Evidence> {
    if device in c then c[device] else []
  }

  predicate SameClaim(a: Evidence, b: Evidence) {
    a.environment == b.environment && KeyOf(a.pcm) == KeyOf(b.pcm)
  }

  function Retained(es: seq<Evidence>, e: Evidence): seq<Evidence> {
    if es == [] then []
    else Retained(es[..|es| - 1], e) + (if SameClaim(es[|es| - 1], e) then [] else [es[|es| - 1]])
  }

  function Merged(c: Cache, e: Evidence): Cache {
    if e.supported.None? then c else c[e.device := Retained(Cached(c, e.device), e) + [e]]
  }

  function InEnvironment(es: seq<Evidence>, environment: string): seq<Evidence> {
    if es == [] then []
    else InEnvironment(es[..|es| - 1], environment) + (if es[|es| - 1].environment == environment then [es[|es| - 1]] else [])
  }

  /** `cached_evidence_current`; `None` is an environment that cannot be identified. */
  function Current(c: Cache, device: string, environment: Option<string>): seq<Evidence> {
    if environment.None? then [] else InEnvironment(Cached(c, device), environment.value)
  }

  class EvidenceCache {
    var items: Cache

    constructor ()
      ensures items == map[]
    {
      items := map[];
    }

    method CacheConclusiveEvidence(e: Evidence)
      modifies this
      ensures items == Merged(old(items), e)
    {
      if e.supported.Some? {
        var cached := Cached(items, e.device);
        var retained: seq<Evidence> := [];
        for i := 0 to |cached|
          invariant retained == Retained(cached[..i], e)
        {
          assert cached[..i + 1][..i] == cached[..i];
          if !SameClaim(cached[i], e) {
            retained := retained + [cached[i]];
          }
        }
        assert cached[..|cached|] == cached;
        items := items[e.device := retained + [e]];
      }
    }

    method CachedEvidenceCurrent(device: string, environment: Option<string>) returns (es: seq<Evidence>)
      ensures es == Current(items, device, environment)
    {
      es := [];
      if environment.Some? {
        var cached := Cached(items, device);
        for i := 0 to |cached|
          invariant es == InEnvironment(cached[..i], environment.value)
        {
          assert cached[..i + 1][..i] == cached[..i];
          if cached[i].environment == environment.value {
            es := es + [cached[i]];
          }
        }
        assert cached[..|cached|] == cached;
      }
    }
  }

  // ---------------------------------------------------------------------------
  // Claims come from probes
  // ---------------------------------------------------------------------------

  /** A probe of a device, with the environment before and after it. */
  datatype Probing = Probing(result: ProbeResult, device: string, before: string, after: string)

  function Learned(c: Cache, ps: seq<Probing>): Cache {
    if ps == [] then c
    else
      var p := ps[|ps| - 1];
      Merged(Learned(c, ps[..|ps| - 1]), EvidenceOf(p.result, p.device, p.before, p.after))
  }

  ghost predicate Earned(e: Evidence, ps: seq<Probing>) {
    exists i :: 0 <= i < |ps| && Earns(ps[i], e)
  }

  /** The probe that justifies a claim: exact, in one environment, and saying just that. */
  ghost predicate Earns(p: Probing, e: Evidence) {
    && e.device == p.device && p.before == p.after == e.environment && KeyOf(e.pcm) == KeyOf(p.result.requested)
    && ((e.supported == Some(true) && OpenedExactly(p.result)) || (e.supported == Some(false) && RefusedExactly(p.result)))
  }

  lemma {:induction false} RetainedMembers(es: seq<Evidence>, e: Evidence, x: Evidence)
    ensures x in Retained(es, e) <==> x in es && !SameClaim(x, e)
  {
    if es != [] {
      RetainedMembers(es[..|es| - 1], e, x);
    }
  }

  /** Whatever the probes, every claim in the cache was earned by one of them: no busy, removed
      or timed-out device, and no change of environment, ever counts for or against a tuple. */
  lemma {:induction false} EveryClaimEarned(ps: seq<Probing>, device: string, e: Evidence)
    requires e in Cached(Learned(map[], ps), device)
    ensures e.device == device && Earned(e, ps)
  {
    hide OpenedExactly, RefusedExactly;
    if ps != [] {
      var init, p := ps[..|ps| - 1], ps[|ps| - 1];
      var before := Learned(map[], init);
      var x := EvidenceOf(p.result, p.device, p.before, p.after);
      RetainedMembers(Cached(before, x.device), x, e);
      if e in Cached(before, device) {
        EveryClaimEarned(init, device, e);
        var i :| 0 <= i < |init| && Earns(init[i], e);
        assert Earns(ps[i], e);
      } else {
        assert e == x && Earns(ps[|ps| - 1], e);
      }
    }
  }

  ghost predicate OpenedAsAsked(r: ProbeResult) {
    && r.disposition == "OPENED" && r.negotiated.Some?
    && r.negotiated.value.rate == r.requested.rate && r.negotiated.value.format == r.requested.format
    && r.negotiated.value.channels == r.requested.channels
  }

  /** `e` is what the probe establishes: in an environment that stayed the same, an opening as it
      was asked for speaks for the tuple with the bits read back, and a refusal of the format
      against it with the bits asked for; nothing else says anything. */
  ghost predicate Establishes(p: Probing, e: Evidence) {
    var r := p.result;
    && p.before == p.after == e.environment && e.device == p.device && e.reference == r.reference
    && e.pcm.rate == r.requested.rate && e.pcm.format == r.requested.format && e.pcm.channels == r.requested.channels
    && (if OpenedAsAsked(r) then e.supported == Some(true) && e.pcm.significantBits == r.negotiated.value.significantBits
        else r.disposition == "unsupported_format" && e.supported == Some(false) && e.pcm.significantBits == r.requested.significantBits)
  }

  lemma EstablishesIff(p: Probing, e: Evidence)
    ensures Establishes(p, e) <==> e == EvidenceOf(p.result, p.device, p.before, p.after) && e.supported.Some?
  {
  }

  /** A later probe of the run speaks about the same device and tuple in the same environment. */
  ghost predicate Overtaken(ps: seq<Probing>, i: nat, e: Evidence) {
    exists j, x :: i < j < |ps| && Establishes(ps[j], x) && About(x, e)
  }

  ghost predicate About(x: Evidence, e: Evidence) {
    && x.device == e.device && x.environment == e.environment
    && x.pcm.rate == e.pcm.rate && x.pcm.format == e.pcm.format && x.pcm.channels == e.pcm.channels
  }

  ghost predicate Latest(ps: seq<Probing>, e: Evidence) {
    exists i :: 0 <= i < |ps| && Establishes(ps[i], e) && !Overtaken(ps, i, e)
  }

  lemma LatestNext(ps: seq<Probing>, e: Evidence)
    requires ps != []
    ensures Latest(ps, e) <==>
              || Establishes(ps[|ps| - 1], e)
              || (Latest(ps[..|ps| - 1], e) && forall x :: Establishes(ps[|ps| - 1], x) ==> !About(x, e))
  {
    hide Establishes, About;
    var n := |ps| - 1;
    var init := ps[..n];
    if Establishes(ps[n], e) {
      assert !Overtaken(ps, n, e);
    }
    forall i: nat | i < n
      ensures Overtaken(ps, i, e) <==> Overtaken(init, i, e) || exists x :: Establishes(ps[n], x) && About(x, e)
    {
      OvertakenNext(ps, i, e);
    }
    if Latest(ps, e) && !Establishes(ps[n], e) {
      var i :| 0 <= i < |ps| && Establishes(ps[i], e) && !Overtaken(ps, i, e);
      assert init[i] == ps[i];
    }
    if Latest(init, e) && forall x :: Establishes(ps[n], x) ==> !About(x, e) {
      var i :| 0 <= i < |init| && Establishes(init[i], e) && !Overtaken(init, i, e);
      assert ps[i] == init[i];
    }
  }

  lemma OvertakenNext(ps: seq<Probing>, i: nat, e: Evidence)
    requires i < |ps| - 1
    ensures Overtaken(ps, i, e) <==>
              Overtaken(ps[..|ps| - 1], i, e) || exists x :: Establishes(ps[|ps| - 1], x) && About(x, e)
  {
    hide Establishes, About;
    var init := ps[..|ps| - 1];
    if Overtaken(ps, i, e) {
      var j, x :| i < j < |ps| && Establishes(ps[j], x) && About(x, e);
      if j < |ps| - 1 {
        assert init[j] == ps[j];
      }
    }
    if Overtaken(init, i, e) {
      var j, x :| i < j < |init| && Establishes(init[j], x) && About(x, e);
      assert ps[j] == init[j];
    }
  }

  /** After any probes the cache of a device holds exactly what each of them established that no
      later one overtook. */
  lemma {:induction false} CacheHoldsLatest(ps: seq<Probing>, device: string, e: Evidence)
    ensures e in Cached(Learned(map[], ps), device) <==> e.device == device && Latest(ps, e)
  {
    hide Establishes, EvidenceOf, Overtaken;
    if ps != [] {
      var init, p := ps[..|ps| - 1], ps[|ps| - 1];
      var before := Learned(map[], init);
      var x := EvidenceOf(p.result, p.device, p.before, p.after);
      CacheHoldsLatest(init, device, e);
      LatestNext(ps, e);
      forall y {
        EstablishesIff(p, y);
      }
      assert (forall y :: Establishes(p, y) ==> !About(y, e)) <==> (x.supported.None? || !About(x, e)) by {
        assert Establishes(p, x) <==> x.supported.Some?;
      }
      EveryOfDevice(init, device, e);
      MergedHolds(before, x, device, e);
    }
  }

  lemma MergedHolds(c: Cache, x: Evidence, device: string, e: Evidence)
    requires e in Cached(c, device) ==> e.device == device
    ensures e in Cached(Merged(c, x), device) <==>
              if x.supported.None? then e in Cached(c, device)
              else (e == x && x.device == device) || (e in Cached(c, device) && !About(x, e))
  {
    RetainedMembers(Cached(c, x.device), x, e);
  }

  lemma EveryOfDevice(ps: seq<Probing>, device: string, e: Evidence)
    ensures e in Cached(Learned(map[], ps), device) ==> e.device == device
  {
    if e in Cached(Learned(map[], ps), device) {
      EveryClaimEarned(ps, device, e);
    }
  }

  // ---------------------------------------------------------------------------
  // Planning and probing to an answer
  // ---------------------------------------------------------------------------

  lemma {:induction false} CurrentMembers(es: seq<Evidence>, environment: string, x: Evidence)
    ensures x in InEnvironment(es, environment) <==> x in es && x.environment == environment
  {
    if es != [] {
      CurrentMembers(es[..|es| - 1], environment, x);
    }
  }

  /** Only what was established in this very environment is current, and nothing when the
      environment cannot be identified. */
  lemma CurrentIff(c: Cache, device: string, environment: Option<string>, e: Evidence)
    ensures e in Current(c, device, environment) <==>
              device in c && e in c[device] && environment == Some(e.environment)
  {
    if environment.Some? {
      CurrentMembers(Cached(c, device), environment.value, e);
    }
  }

  lemma ClaimedIffMember(es: seq<Evidence>, device: Option<string>, key: PcmKey, supported: bool)
    ensures Claimed(es, device, key, supported) <==> exists x :: x in es && Matches(x, device, key) && x.supported == Some(supported)
  {
    if Claimed(es, device, key, supported) {
      var i :| 0 <= i < |es| && Matches(es[i], device, key) && es[i].supported == Some(supported);
      assert es[i] in es;
    }
  }

  function FactsWith(f: Facts, c: Cache, environment: string): Facts
    requires f.device.Some?
  {
    f.(evidence := Current(c, f.device.value, Some(environment)))
  }

  /** Membership in what the planner sees after merging `e`. */
  lemma MergedMembers(c: Cache, device: string, environment: string, e: Evidence, x: Evidence)
    requires e.supported.Some? && e.device == device && e.environment == environment
    ensures x in Current(Merged(c, e), device, Some(environment))
            <==> x == e || (x in Current(c, device, Some(environment)) && KeyOf(x.pcm) != KeyOf(e.pcm))
  {
    RetainedMembers(Cached(c, device), e, x);
    CurrentMembers(Cached(c, device), environment, x);
    CurrentMembers(Cached(Merged(c, e), device), environment, x);
  }

  /** A conclusive claim settles its own tuple and leaves every other as it was. */
  lemma MergeSettles(f: Facts, c: Cache, environment: string, e: Evidence, key: PcmKey)
    requires f.device.Some? && e.supported.Some? && e.device == f.device.value && e.environment == environment
    ensures var before, after := StateOf(FactsWith(f, c, environment), key), StateOf(FactsWith(f, Merged(c, e), environment), key);
            if key == KeyOf(e.pcm) then after == (if e.supported.value then Positive else Negative) else after == before
  {
    hide Merged, Current, Claimed;
    var b, a := FactsWith(f, c, environment).evidence, FactsWith(f, Merged(c, e), environment).evidence;
    forall x
      ensures x in a <==> x == e || (x in b && KeyOf(x.pcm) != KeyOf(e.pcm))
    {
      MergedMembers(c, f.device.value, environment, e, x);
    }
    ClaimedIffMember(a, f.device, key, true);
    ClaimedIffMember(a, f.device, key, false);
    ClaimedIffMember(b, f.device, key, true);
    ClaimedIffMember(b, f.device, key, false);
    assert Matches(e, f.device, KeyOf(e.pcm));
  }

  /** How a device answers an exact probe. */
  type Answers = PcmKey -> ProbeResult

  ghost predicate AnswersExactly(answers: Answers) {
    forall key :: KeyOf(answers(key).requested) == key
  }

  ghost predicate AlwaysConclusive(answers: Answers) {
    forall key :: Conclusive(answers(key))
  }

  predicate Asks(o: Outcome) {
    o.Refused? && o.code.ExactTupleUnknown? && o.about.Some?
  }

  /** Plan; if the planner asks for a tuple, probe it and cache what is conclusive. */
  function Round(f: Facts, c: Cache, environment: string, answers: Answers): Cache
    requires f.device.Some?
  {
    var o := PlanOf(FactsWith(f, c, environment));
    if Asks(o) then Merged(c, EvidenceFrom(answers(o.about.value), f.device.value, environment)) else c
  }

  function Rounds(f: Facts, c: Cache, environment: string, answers: Answers, n: nat): Cache
    requires f.device.Some?
    decreases n
  {
    if n == 0 then c else Rounds(f, Round(f, c, environment, answers), environment, answers, n - 1)
  }

  /** The candidates nothing conclusive is known about. */
  function UnknownCount(f: Facts, cs: seq<Candidate>): nat {
    if cs == [] then 0
    else UnknownCount(f, cs[1..]) + (if StateOf(f, KeyOf(cs[0].pcm)).Unknown? then 1 else 0)
  }

  ghost predicate DistinctKeys(cs: seq<Candidate>) {
    forall i, j :: 0 <= i < j < |cs| ==> KeyOf(cs[i].pcm) != KeyOf(cs[j].pcm)
  }

  lemma {:induction false} SettlingShrinks(f: Facts, c: Cache, environment: string, e: Evidence, cs: seq<Candidate>)
    requires f.device.Some? && e.supported.Some? && e.device == f.device.value && e.environment == environment
    requires DistinctKeys(cs)
    ensures var before, after := FactsWith(f, c, environment), FactsWith(f, Merged(c, e), environment);
            && UnknownCount(after, cs) <= UnknownCount(before, cs)
            && ((exists i :: 0 <= i < |cs| && KeyOf(cs[i].pcm) == KeyOf(e.pcm) && StateOf(before, KeyOf(e.pcm)).Unknown?) ==>
                  UnknownCount(after, cs) == UnknownCount(before, cs) - 1)
            && ((forall i :: 0 <= i < |cs| ==> KeyOf(cs[i].pcm) != KeyOf(e.pcm)) ==> UnknownCount(after, cs) == UnknownCount(before, cs))
  {
    hide StateOf, Merged, FactsWith;
    if cs != [] {
      SettlingShrinks(f, c, environment, e, cs[1..]);
      MergeSettles(f, c, environment, e, KeyOf(cs[0].pcm));
      if KeyOf(cs[0].pcm) == KeyOf(e.pcm) {
        forall i | 0 <= i < |cs[1..]|
          ensures KeyOf(cs[1..][i].pcm) != KeyOf(e.pcm)
        {
          assert cs[1..][i] == cs[i + 1];
        }
      } else if exists i :: 0 <= i < |cs| && KeyOf(cs[i].pcm) == KeyOf(e.pcm) && StateOf(FactsWith(f, c, environment), KeyOf(e.pcm)).Unknown? {
        var i :| 0 <= i < |cs| && KeyOf(cs[i].pcm) == KeyOf(e.pcm) && StateOf(FactsWith(f, c, environment), KeyOf(e.pcm)).Unknown?;
        assert cs[1..][i - 1] == cs[i];
      }
    }
  }

  lemma {:induction false} UndecidedIsUnknown(f: Facts, cs: seq<Candidate>, i: nat)
    requires i <= |cs| && Choose(f, cs, i).Undecided?
    ensures Choose(f, cs, i).candidate in cs && StateOf(f, KeyOf(Choose(f, cs, i).candidate.pcm)).Unknown?
    decreases |cs| - i
  {
    hide StateOf;
    if StateOf(f, KeyOf(cs[i].pcm)).Negative? {
      UndecidedIsUnknown(f, cs, i + 1);
    }
  }

  lemma {:induction false} UnknownCounted(f: Facts, cs: seq<Candidate>, c: Candidate)
    requires c in cs && StateOf(f, KeyOf(c.pcm)).Unknown?
    ensures UnknownCount(f, cs) > 0
  {
    if cs[0] != c {
      UnknownCounted(f, cs[1..], c);
    }
  }

  lemma AskedIsUnknown(f: Facts)
    requires Asks(PlanOf(f))
    ensures var cs, key := Candidates(f.source, AllowsAdaptation(f)), PlanOf(f).about.value;
            && StateOf(f, key).Unknown?
            && (exists i :: 0 <= i < |cs| && KeyOf(cs[i].pcm) == key)
            && UnknownCount(f, cs) > 0
  {
    hide StateOf, Candidates, PositiveFor, References, BitsProven, BitsRefuted, IsPcm;
    var cs := Candidates(f.source, AllowsAdaptation(f));
    UndecidedIsUnknown(f, cs, 0);
    UnknownCounted(f, cs, Choose(f, cs, 0).candidate);
  }

  /** Every round with a conclusive answer leaves exactly one candidate fewer unknown. */
  lemma RoundShrinks(f: Facts, c: Cache, environment: string, answers: Answers)
    requires f.device.Some? && AnswersExactly(answers) && AlwaysConclusive(answers)
    requires Asks(PlanOf(FactsWith(f, c, environment)))
    ensures var cs := Candidates(f.source, AllowsAdaptation(f));
            UnknownCount(FactsWith(f, Round(f, c, environment, answers), environment), cs)
            == UnknownCount(FactsWith(f, c, environment), cs) - 1
  {
    hide PlanOf, StateOf, Current, Merged, Candidates;
    var g := FactsWith(f, c, environment);
    var key := PlanOf(g).about.value;
    var e := EvidenceFrom(answers(key), f.device.value, environment);
    AskedIsUnknown(g);
    assert Conclusive(answers(key)) && KeyOf(answers(key).requested) == key;
    assert Candidates(g.source, AllowsAdaptation(g)) == Candidates(f.source, AllowsAdaptation(f));
    SettlingShrinks(f, c, environment, e, Candidates(f.source, AllowsAdaptation(f)));
  }

  /** In a fixed environment the loop is over after as many conclusive probes as there are
      unknown candidates. */
  lemma {:induction false} RoundsSettle(f: Facts, c: Cache, environment: string, answers: Answers, n: nat)
    requires f.device.Some? && AnswersExactly(answers) && AlwaysConclusive(answers)
    requires UnknownCount(FactsWith(f, c, environment), Candidates(f.source, AllowsAdaptation(f))) <= n
    ensures !Asks(PlanOf(FactsWith(f, Rounds(f, c, environment, answers, n), environment)))
    decreases n
  {
    hide PlanOf, StateOf, Current, Merged, Candidates;
    var g := FactsWith(f, c, environment);
    if n == 0 {
      if Asks(PlanOf(g)) {
        AskedIsUnknown(g);
      }
    } else {
      if Asks(PlanOf(g)) {
        RoundShrinks(f, c, environment, answers);
      } else {
        QuietRounds(f, c, environment, answers, n);
      }
      if Asks(PlanOf(g)) {
        RoundsSettle(f, Round(f, c, environment, answers), environment, answers, n - 1);
      }
    }
  }

  lemma {:induction false} QuietRounds(f: Facts, c: Cache, environment: string, answers: Answers, n: nat)
    requires f.device.Some? && !Asks(PlanOf(FactsWith(f, c, environment)))
    ensures Rounds(f, c, environment, answers, n) == c
    decreases n
  {
    hide PlanOf, Current;
    if n > 0 {
      QuietRounds(f, c, environment, answers, n - 1);
    }
  }

  lemma {:induction false} AtMostAll(f: Facts, cs: seq<Candidate>)
    ensures UnknownCount(f, cs) <= |cs|
  {
    if cs != [] {
      AtMostAll(f, cs[1..]);
    }
  }

  /** From any cache at all, two conclusive probes end the questions; strict mode needs one. */
  lemma TwoProbesSuffice(f: Facts, c: Cache, environment: string, answers: Answers)
    requires f.device.Some? && AnswersExactly(answers) && AlwaysConclusive(answers)
    ensures !Asks(PlanOf(FactsWith(f, Rounds(f, c, environment, answers, 2), environment)))
    ensures !AllowsAdaptation(f) ==> !Asks(PlanOf(FactsWith(f, Rounds(f, c, environment, answers, 1), environment)))
  {
    hide PlanOf, StateOf, Current, Round, FactsWith;
    var cs := Candidates(f.source, AllowsAdaptation(f));
    AtMostAll(FactsWith(f, c, environment), cs);
    RoundsSettle(f, c, environment, answers, 2);
    if !AllowsAdaptation(f) {
      RoundsSettle(f, c, environment, answers, 1);
    }
  }

  /** An inconclusive answer changes nothing: the same question comes back for ever. */
  lemma InconclusiveRoundAsksAgain(f: Facts, c: Cache, environment: string, answers: Answers, n: nat)
    requires f.device.Some? && Asks(PlanOf(FactsWith(f, c, environment)))
    requires !Conclusive(answers(PlanOf(FactsWith(f, c, environment)).about.value))
    ensures Rounds(f, c, environment, answers, n) == c
    decreases n
  {
    hide PlanOf, Current;
    if n > 0 {
      InconclusiveRoundAsksAgain(f, c, environment, answers, n - 1);
    }
  }
}
