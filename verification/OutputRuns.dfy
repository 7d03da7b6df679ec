/** Output intents over whole runs: agreement, revisions, notifications, and the policy that
    cannot be selected twice. */
module OutputRuns {
  import opened Wrappers
  import opened Texts
  import opened CarrierPlanning
  import opened OutputIntents

  datatype Event = Event(intent: Intent, around: Surroundings)

  /** The state after the first `n` intents. */
  function At(s: State, events: seq<Event>, n: nat): State
    requires n <= |events|
  {
    if n == 0 then s else Intended(At(s, events, n - 1), events[n - 1].around, events[n - 1].intent).0
  }

  ghost predicate Moved(s: State, z: State) {
    && s.service.revision <= z.service.revision
    && (s.service.revision == z.service.revision ==> Unwritten(s.service, z.service))
  }

  /** Over every run, whatever the devices and the engine do meanwhile. */
  lemma {:induction false} RunMoves(s: State, events: seq<Event>, i: nat, j: nat)
    requires Ready(s) && s.service.depth == 0 && i <= j <= |events|
    ensures Ready(At(s, events, i)) && Ready(At(s, events, j)) && At(s, events, j).service.depth == 0
    ensures Moved(At(s, events, i), At(s, events, j))
    ensures Agree(At(s, events, i)) ==> Agree(At(s, events, j))
    decreases j, i
  {
    hide Intended, Agree, RepositoryOk;
    if j > 0 {
      RunMoves(s, events, if i == j then j - 1 else i, j - 1);
      IntentKept(At(s, events, j - 1), events[j - 1].around, events[j - 1].intent);
      assert Ready(At(s, events, j)) && Moved(At(s, events, j - 1), At(s, events, j));
    }
  }

  /** Once a selecting intent has succeeded, repository, registry and session agree for ever. */
  lemma AgreementLasts(s: State, events: seq<Event>, i: nat, j: nat)
    requires Ready(s) && s.service.depth == 0 && i < j <= |events|
    requires Selects(events[i].intent) && Intended(At(s, events, i), events[i].around, events[i].intent).1.Done?
    ensures Agree(At(s, events, j))
  {
    hide Intended, Agree;
    RunMoves(s, events, i, i);
    IntentKept(At(s, events, i), events[i].around, events[i].intent);
    RunMoves(s, events, i + 1, j);
  }

  /** Two snapshots of the output intent are equal exactly when their revisions are, and then
      nothing was written between them. */
  lemma SnapshotsEqualIff(s: State, events: seq<Event>, i: nat, k: nat, j: nat)
    requires Ready(s) && s.service.depth == 0 && i <= k <= j <= |events|
    ensures SnapshotOf(At(s, events, i).service) == SnapshotOf(At(s, events, j).service)
            <==> At(s, events, i).service.revision == At(s, events, j).service.revision
    ensures SnapshotOf(At(s, events, i).service) == SnapshotOf(At(s, events, j).service) ==>
              Unwritten(At(s, events, i).service, At(s, events, k).service)
  {
    hide Ready, Lookup;
    RunMoves(s, events, i, j);
    RunMoves(s, events, i, k);
    RunMoves(s, events, k, j);
  }

  /** The intents that wrote, among the first `n`. */
  function Writes(s: State, events: seq<Event>, n: nat): nat
    requires n <= |events|
  {
    if n == 0 then 0
    else
      Writes(s, events, n - 1)
      + (if At(s, events, n).service.revision > At(s, events, n - 1).service.revision then 1 else 0)
  }

  /** The observers are told once per intent that wrote, however many writes it made. */
  lemma {:induction false} NotifiedPerIntent(s: State, events: seq<Event>, n: nat)
    requires Ready(s) && s.service.depth == 0 && n <= |events|
    ensures At(s, events, n).service.notified == s.service.notified + Writes(s, events, n)
  {
    hide Intended, Ready;
    if n > 0 {
      NotifiedPerIntent(s, events, n - 1);
      RunMoves(s, events, n - 1, n - 1);
      IntentKept(At(s, events, n - 1), events[n - 1].around, events[n - 1].intent);
    }
  }

  // ---------------------------------------------------------------------------
  // The managed policy a second time
  // ---------------------------------------------------------------------------

  lemma SelectedAgain(s: State, e: Surroundings, device: string, path: Path)
    requires Ready(s) && Agree(s) && DeviceFamily(path)
    requires s.service.selection.device == Some(device) && SelectedProfile(s).Some? && SelectedProfile(s).value.path == path
    ensures CandidateFor(s, device, path) == SelectedProfile(s)
  {
  }

  /** What a successful selection of a policy leaves selected. */
  lemma PolicyLeaves(s: State, e: Surroundings, device: string, path: Path)
    requires Ready(s) && DeviceFamily(path) && BatchedPolicy(s, e, device, path).1.Done?
    ensures var z := BatchedPolicy(s, e, device, path).0;
            && DeviceRefusal(e, device).None? && !Ephemeral(Some(device))
            && z.service.keepsProcessing == s.service.keepsProcessing
            && z.service.selection.device == Some(device)
            && SelectedProfile(z).Some?
            && var p := SelectedProfile(z).value;
               p.path == path && p.device == Some(device) && EngineRefusal(e, p).None?
               && (path.Managed? ==> p.fallback.Stop? && p.allowProcessing == s.service.keepsProcessing)
  {
    hide Ephemeral, Put, Lookup, ProfileRejected, DeviceRefusal, CandidateFor, Strip;
    var o := Opened(s);
    var candidate := CandidateFor(o, device, path);
    if candidate.Some? {
      CandidateHeld(o, device, path);
      KeptOnly(s, candidate.value);
    } else {
      var p := PolicyProfile(e, device, path);
      PutLookup(o.service.profiles, Kept(o.service, p), p.id);
      RejectedDevice(p);
    }
  }

  lemma RejectedDevice(p: OutputProfile)
    requires !ProfileRejected(p)
    ensures !Ephemeral(p.device)
  {
  }

  /** A profile of the repository permits processing only if the repository keeps the flag. */
  lemma KeptOnly(s: State, p: OutputProfile)
    requires Ready(s) && Lookup(s.service.profiles, Some(p.id)) == Some(p)
    ensures p.allowProcessing ==> s.service.keepsProcessing
  {
    LookupMember(s.service.profiles, Some(p.id));
  }

  lemma {:induction false} LookupMember(ps: seq<OutputProfile>, id: Option<string>)
    requires Lookup(ps, id).Some?
    ensures Lookup(ps, id).value in ps
  {
    if ps[0].id != id.value {
      LookupMember(ps[1..], id);
    }
  }

  /** A managed output can be selected again in the same surroundings exactly when the
      repository keeps the processing flag, which the shipped one does not: the first selection
      succeeds on the profile it has just made, every later one reads it back without the
      permission and refuses. */
  lemma ManagedAgainIff(s: State, e: Surroundings, device: string)
    requires Ready(s) && s.service.depth == 0
    requires BatchedPolicy(s, e, device, Managed).1.Done?
    ensures var z := BatchedPolicy(s, e, device, Managed).0;
            BatchedPolicy(z, e, device, Managed).1 == if s.service.keepsProcessing then Done else Denied(ProfileInvalid)
  {
    hide Ephemeral, Put, Lookup, ProfileRejected, DeviceRefusal, PolicySelected;
    var z := BatchedPolicy(s, e, device, Managed).0;
    PolicyKept(s, e, device, Managed);
    PolicyLeaves(s, e, device, Managed);
    SelectedAgain(z, e, device, Managed);
    Reselected(z, e, device, SelectedProfile(z).value);
  }

  lemma Reselected(z: State, e: Surroundings, device: string, p: OutputProfile)
    requires CandidateFor(z, device, Managed) == Some(p) && p.device == Some(device) && p.path.Managed? && p.fallback.Stop?
    requires DeviceRefusal(e, device).None? && EngineRefusal(e, p).None? && !Ephemeral(Some(device))
    ensures BatchedPolicy(z, e, device, Managed).1 == if p.allowProcessing then Done else Denied(ProfileInvalid)
  {
    hide Ephemeral, Lookup, FirstFor, DeviceRefusal;
    assert CandidateFor(Opened(z), device, Managed) == CandidateFor(z, device, Managed);
  }

  /** A repository without the processing flag, one device, and GStreamer active. */
  const SHELF: State :=
    State(Service([], Selection(None, Some("d")), false, 0, 0, false, 0), Some("d"), Selection(None, Some("d")), 0)

  const STUDIO: Surroundings := Surroundings(map["d" := Device(true, true)], true, (s: string) => s)

  lemma ShortNameIsStable()
    ensures !Ephemeral(Some("d")) && Strip("d") == "d"
  {
    assert Strip("d") == "d";
    assert Lower("d") == "d";
    forall i | 0 <= i < |RAW_PREFIXES|
      ensures !(RAW_PREFIXES[i] <= "d")
    {
      assert |RAW_PREFIXES[i]| > 1;
    }
  }

  lemma ManagedIsItsName()
    ensures PathPolicy(Dashed(Lower(Strip("managed")))) == Some(Managed) && Dashed(Lower(Strip("managed"))) != "shared"
  {
    assert Strip("managed") == "managed";
    assert Lower("managed") == "managed";
    assert Dashed("managed") == "managed";
  }

  /** The managed policy is selected, and refused when it is selected again. */
  lemma ManagedTwice()
    ensures var intent := SelectPathMode("managed");
            var (z, r) := Intended(SHELF, STUDIO, intent);
            && r == Done && Agree(z) && SelectedProfile(z).Some? && SelectedProfile(z).value.path == Managed
            && Intended(z, STUDIO, intent) == (z, Denied(ProfileInvalid))
  {
    hide Ephemeral, Strip, Lower, Dashed, PathPolicy, BatchedPolicy;
    ManagedIsItsName();
    ManagedOnce();
    var z := BatchedPolicy(SHELF, STUDIO, "d", Managed).0;
    IntentKept(SHELF, STUDIO, SelectPathMode("managed"));
    PolicyLeaves(SHELF, STUDIO, "d", Managed);
    ManagedAgainIff(SHELF, STUDIO, "d");
    IntentKept(z, STUDIO, SelectPathMode("managed"));
  }

  lemma ManagedOnce()
    ensures BatchedPolicy(SHELF, STUDIO, "d", Managed).1 == Done && Ready(SHELF)
  {
    hide Ephemeral, Strip;
    ShortNameIsStable();
    var s := Opened(SHELF);
    assert DeviceRefusal(STUDIO, "d").None?;
    assert SelectedProfile(s).None? && CandidateFor(s, "d", Managed).None?;
    var p := PolicyProfile(STUDIO, "d", Managed);
    assert p == OutputProfile("managed:d", Some("d"), Managed, Software, Stop, None, 0, true);
    NoDeviceIsStable();
    assert EngineRefusal(STUDIO, p).None? && !ProfileRejected(p);
    assert ProfileSelected(s.(service := ProfileSaved(s.service, p)), STUDIO, p, "d").1 == Done;
    assert PolicySelected(s, STUDIO, "d", Managed).1 == Done;
  }

  lemma NoDeviceIsStable()
    ensures !Ephemeral(None)
  {
  }
}
