/** The profile service and the selection coordinator as objects, each method proved against
    its function on states. */
module AudioOutputCoordinators {
  import opened Wrappers
  import opened Texts
  import opened CarrierPlanning
  import opened OutputIntents

  class AudioOutputProfileService {
    const keepsProcessing: bool
    var profiles: seq<OutputProfile>
    var selection: Selection
    var outputIntentRevision: nat
    var notificationDepth: nat
    var notificationPending: bool
    /** How often the subscribers were called. */
    var notified: nat

    function View(): Service
      reads this
    {
      Service(profiles, selection, keepsProcessing, outputIntentRevision, notificationDepth, notificationPending, notified)
    }

    constructor (profiles: seq<OutputProfile>, selection: Selection, keepsProcessing: bool)
      ensures View() == Service(profiles, selection, keepsProcessing, 0, 0, false, 0)
    {
      this.profiles, this.selection, this.keepsProcessing := profiles, selection, keepsProcessing;
      outputIntentRevision, notificationDepth, notificationPending, notified := 0, 0, false, 0;
    }

    method Notify()
      modifies this
      ensures View() == OutputIntents.Notify(old(View()))
    {
      if notificationDepth > 0 {
        notificationPending := true;
        return;
      }
      notified := notified + 1;
    }

    method OpenBatch()
      modifies this
      ensures View() == BatchOpened(old(View()))
    {
      notificationDepth := notificationDepth + 1;
    }

    method CloseBatch()
      requires notificationDepth > 0
      modifies this
      ensures View() == BatchClosed(old(View()))
    {
      notificationDepth := notificationDepth - 1;
      if notificationDepth == 0 && notificationPending {
        notificationPending := false;
        Notify();
      }
    }

    /** Raises, before anything is written, for values no profile may have. */
    method SaveProfile(p: OutputProfile) returns (raised: bool)
      modifies this
      ensures raised == ProfileRejected(p)
      ensures View() == if raised then old(View()) else ProfileSaved(old(View()), p)
      ensures outputIntentRevision == old(outputIntentRevision) + (if raised then 0 else 1)
    {
      raised := ProfileRejected(p);
      if !raised {
        profiles := Put(profiles, Kept(View(), p));
        outputIntentRevision := outputIntentRevision + 1;
        Notify();
      }
    }

    method SaveSelection(s: Selection) returns (raised: bool)
      modifies this
      ensures raised == Ephemeral(s.device)
      ensures View() == if raised then old(View()) else SelectionSaved(old(View()), s)
      ensures outputIntentRevision == old(outputIntentRevision) + (if raised then 0 else 1)
    {
      raised := Ephemeral(s.device);
      if !raised {
        selection := s;
        outputIntentRevision := outputIntentRevision + 1;
        Notify();
      }
    }

    /** The revision, the selection, and of the selected profile what the output is prepared from;
        nothing of it when the repository does not hold that profile. */
    method SnapshotOutputIntent() returns (s: Snapshot)
      ensures s == SnapshotOf(View()) && s.revision == outputIntentRevision && s.selection == selection
      ensures Ascending(profiles) ==> forall p :: p in profiles && selection.profile == Some(p.id) ==>
                s.path == Some(p.path) && s.resyncDelayMs == Some(p.resyncDelayMs)
      ensures (forall p :: p in profiles ==> selection.profile != Some(p.id)) ==> s.path.None? && s.resyncDelayMs.None?
    {
      hide Ascending;
      LookupsByName(profiles, selection.profile);
      var p := Lookup(profiles, selection.profile);
      s := Snapshot(outputIntentRevision, selection, if p.Some? then Some(p.value.path) else None,
                    if p.Some? then Some(p.value.resyncDelayMs) else None);
    }
  }

  lemma LookupsByName(ps: seq<OutputProfile>, id: Option<string>)
    ensures Ascending(ps) ==> forall p :: p in ps && id == Some(p.id) ==> Lookup(ps, id) == Some(p)
    ensures (forall p :: p in ps ==> id != Some(p.id)) ==> Lookup(ps, id).None?
  {
    hide Ascending;
    if Ascending(ps) {
      forall p | p in ps && id == Some(p.id)
        ensures Lookup(ps, id) == Some(p)
      {
        LookupUnique(ps, p);
      }
    }
    if Lookup(ps, id).Some? {
      LookupHeld(ps, id);
    }
  }

  lemma {:induction false} LookupHeld(ps: seq<OutputProfile>, id: Option<string>)
    requires Lookup(ps, id).Some?
    ensures Lookup(ps, id).value in ps && id == Some(Lookup(ps, id).value.id)
  {
    if ps[0].id != id.value {
      LookupHeld(ps[1..], id);
    }
  }

  /** The selections of the registry and of the output session. */
  class ReadModels {
    var registry: Option<string>
    var session: Selection
    var cancelled: nat

    constructor ()
      ensures registry.None? && session == Selection(None, None) && cancelled == 0
    {
      registry, session, cancelled := None, Selection(None, None), 0;
    }
  }

  // What the theorem about intents says of the methods below.

  /** Some intents do not look at the devices or the engine. */
  const NOWHERE: Surroundings := Surroundings(map[], false, (s: string) => s)

  lemma IntentHonoured(s: State, e: Surroundings, intent: Intent)
    ensures var (z, r) := Intended(s, e, intent);
            Ready(s) ==> Clean(s, z, r) && (Selects(intent) && r.Done? ==> Agree(z)) && (Agree(s) ==> Agree(z))
  {
    hide *;
    if Ready(s) {
      IntentKept(s, e, intent);
    }
  }

  lemma SharedHonoured(s: State, device: Option<string>)
    ensures var (z, r) := Shared(s, device);
            Ready(s) ==> Clean(s, z, r) && (r.Done? ==> Agree(z)) && (Agree(s) ==> Agree(z))
  {
    hide Ready, Agree, Ephemeral;
    if Ready(s) {
      SharedKept(s, device);
      DeniedAgrees(s, Shared(s, device).0, Shared(s, device).1);
    }
  }

  class AudioOutputSelectionCoordinator {
    const profiles: AudioOutputProfileService
    const models: ReadModels

    function View(): State
      reads this, profiles, models
    {
      State(profiles.View(), models.registry, models.session, models.cancelled)
    }

    constructor (profiles: AudioOutputProfileService, models: ReadModels)
      ensures this.profiles == profiles && this.models == models
    {
      this.profiles, this.models := profiles, models;
    }

    /** What every intent keeps: a refused one changes nothing, one that wrote is announced once,
        and repository, registry and session stay in agreement; one that selects brings it about. */
    twostate predicate Honoured(r: Result, selects: bool)
      reads this, profiles, models
    {
      old(Ready(View())) ==>
        && Clean(old(View()), View(), r)
        && (selects && r.Done? ==> Agree(View()))
        && (old(Agree(View())) ==> Agree(View()))
    }

    /** Repository first, then the two read models. */
    method Align(selection: Selection) returns (raised: bool)
      modifies profiles, models
      ensures raised == Ephemeral(selection.device)
      ensures View() == if raised then old(View()) else Aligned(old(View()), selection)
    {
      raised := profiles.SaveSelection(selection);
      if !raised {
        models.registry := selection.device;
        models.session := selection;
      }
    }

    method SupersedePendingPreparation()
      modifies models
      ensures View() == Superseded(old(View()))
    {
      models.cancelled := models.cancelled + 1;
    }

    method SelectWithoutProfile(device: Option<string>) returns (r: Result)
      requires Calm(View())
      modifies profiles, models
      ensures var t := Shared(old(View()), device); View() == t.0 && r == t.1
      ensures Honoured(r, true)
    {
      hide Clean, Agree, Ready;
      SharedHonoured(View(), device);
      hide Ephemeral;
      profiles.OpenBatch();
      var raised := Align(Selection(None, device));
      profiles.CloseBatch();
      if raised {
        return Denied(InvalidValue);
      }
      SupersedePendingPreparation();
      r := Done;
    }

    method SelectSharedOutput() returns (r: Result)
      requires Calm(View())
      modifies profiles, models
      ensures var t := Shared(old(View()), old(View()).service.selection.device); View() == t.0 && r == t.1
      ensures Honoured(r, true)
    {
      hide Clean, Agree, Ready;
      SharedHonoured(View(), profiles.selection.device);
      r := SelectWithoutProfile(profiles.selection.device);
    }

    method SelectProfileFor(e: Surroundings, p: OutputProfile, device: string) returns (r: Result)
      modifies profiles, models
      ensures var t := ProfileSelected(old(View()), e, p, device); View() == t.0 && r == t.1
      ensures r == Denied(ProfileMismatch) <==> p.device != Some(device)
    {
      hide Ephemeral;
      if p.device != Some(device) {
        return Denied(ProfileMismatch);
      }
      if p.path.Managed? && (!p.allowProcessing || !p.fallback.Stop?) {
        return Denied(ProfileInvalid);
      }
      if EngineRefusal(e, p).Some? {
        return Denied(EngineUnsuited);
      }
      var raised := Align(Selection(Some(p.id), Some(device)));
      if raised {
        return Denied(InvalidValue);
      }
      SupersedePendingPreparation();
      r := Done;
    }

    method SelectDevicePolicy(e: Surroundings, device: string, path: Path) returns (r: Result)
      requires DeviceFamily(path)
      modifies profiles, models
      ensures var t := PolicySelected(old(View()), e, device, path); View() == t.0 && r == t.1
    {
      hide ProfileSelected, CandidateFor, ProfileRejected, DeviceRefusal;
      var refusal := DeviceRefusal(e, device);
      if refusal.Some? {
        return Denied(refusal.value);
      }
      var candidate := CandidateFor(View(), device, path);
      if candidate.Some? {
        r := SelectProfileFor(e, candidate.value, device);
        return;
      }
      if path.Managed? && Strip(device) == "" {
        return Denied(InvalidValue);
      }
      var p := PolicyProfile(e, device, path);
      if EngineRefusal(e, p).Some? {
        return Denied(EngineUnsuited);
      }
      var raised := profiles.SaveProfile(p);
      if raised {
        return Denied(InvalidValue);
      }
      r := SelectProfileFor(e, p, device);
    }

    method SelectPolicyInBatch(e: Surroundings, device: string, path: Path) returns (r: Result)
      requires DeviceFamily(path)
      modifies profiles, models
      ensures var t := BatchedPolicy(old(View()), e, device, path); View() == t.0 && r == t.1
    {
      hide PolicySelected;
      profiles.OpenBatch();
      r := SelectDevicePolicy(e, device, path);
      if profiles.notificationDepth > 0 {
        profiles.CloseBatch();
      }
    }

    method SelectDevice(e: Surroundings, device: string) returns (r: Result)
      requires Calm(View())
      modifies profiles, models
      ensures var t := Intended(old(View()), e, Intent.SelectDevice(device)); View() == t.0 && r == t.1
      ensures Honoured(r, true)
    {
      hide Clean, Agree, Ready;
      IntentHonoured(View(), e, Intent.SelectDevice(device));
      hide Shared, BatchedPolicy, Strip, DeviceRefusal;
      var id := Strip(device);
      if id == "" {
        r := SelectSharedOutput();
        return;
      }
      var refusal := DeviceRefusal(e, id);
      if refusal.Some? {
        return Denied(refusal.value);
      }
      var current := SelectedProfile(View());
      if current.None? || !DeviceFamily(current.value.path) {
        r := SelectWithoutProfile(Some(id));
        return;
      }
      r := SelectPolicyInBatch(e, id, current.value.path);
    }

    /** Never downgrades a managed intent. */
    method SelectDeviceForPlayback(e: Surroundings, device: string) returns (r: Result, changed: bool)
      requires Calm(View())
      modifies profiles, models
      ensures var t := Intended(old(View()), e, Intent.SelectDeviceForPlayback(device)); View() == t.0 && r == t.1
      ensures changed == (profiles.selection != old(profiles.selection))
      ensures Honoured(r, true)
    {
      hide Clean, Agree, Ready;
      IntentHonoured(View(), e, Intent.SelectDeviceForPlayback(device));
      hide Shared, BatchedPolicy, Strip;
      var before := profiles.selection;
      var id := Strip(device);
      if id == "" {
        r := SelectSharedOutput();
      } else {
        var current := SelectedProfile(View());
        r := SelectPolicyInBatch(e, id, if current.Some? && current.value.path.Managed? then Managed else HardwareDirectCompatible);
      }
      changed := profiles.selection != before;
    }

    method SelectPathMode(e: Surroundings, mode: string) returns (r: Result)
      requires Calm(View())
      modifies profiles, models
      ensures var t := PathModeSelected(old(View()), e, mode); View() == t.0 && r == t.1
      ensures Honoured(r, true)
    {
      hide Clean, Agree, Ready;
      IntentHonoured(View(), e, Intent.SelectPathMode(mode));
      hide Shared, BatchedPolicy, Strip, Lower, Dashed, DeviceRefusal;
      var normalized := Dashed(Lower(Strip(mode)));
      if normalized == "shared" {
        r := SelectSharedOutput();
        return;
      }
      var policy := PathPolicy(normalized);
      if policy.None? {
        return Denied(PathModeUnknown);
      }
      var device := profiles.selection.device;
      if device.None? {
        return Denied(DeviceMissing);
      }
      var refusal := DeviceRefusal(e, device.value);
      if refusal.Some? {
        return Denied(refusal.value);
      }
      r := SelectPolicyInBatch(e, device.value, policy.value);
    }

    method SelectProfile(e: Surroundings, id: string) returns (r: Result)
      requires Calm(View())
      modifies profiles, models
      ensures var t := NamedProfileSelected(old(View()), e, id); View() == t.0 && r == t.1
      ensures Honoured(r, true)
    {
      hide Clean, Agree, Ready;
      IntentHonoured(View(), e, Intent.SelectProfile(id));
      hide Shared, ProfileSelected, DeviceRefusal;
      var p := Lookup(profiles.profiles, Some(id));
      if p.None? {
        return Denied(ProfileUnknown);
      }
      if p.value.device.None? {
        if DeviceFamily(p.value.path) {
          return Denied(DeviceMissing);
        }
        r := SelectSharedOutput();
        return;
      }
      var refusal := DeviceRefusal(e, p.value.device.value);
      if refusal.Some? {
        return Denied(refusal.value);
      }
      profiles.OpenBatch();
      r := SelectProfileFor(e, p.value, p.value.device.value);
      if profiles.notificationDepth > 0 {
        profiles.CloseBatch();
      }
    }

    method SetResyncDelayMs(value: int) returns (r: Result)
      requires Calm(View())
      modifies profiles, models
      ensures var t := ResyncDelaySet(old(View()), value); View() == t.0 && r == t.1
      ensures Honoured(r, false)
    {
      hide Clean, Agree, Ready;
      IntentHonoured(View(), NOWHERE, SetResyncDelay(value));
      hide ProfileRejected, Put;
      if value < 0 || value > 5_000 {
        return Denied(ResyncDelayInvalid);
      }
      var p := SelectedProfile(View());
      if p.None? || !IsDirect(p.value.path) {
        return Denied(DirectProfileRequired);
      }
      profiles.OpenBatch();
      var raised := profiles.SaveProfile(p.value.(resyncDelayMs := value));
      profiles.CloseBatch();
      if raised {
        return Denied(InvalidValue);
      }
      SupersedePendingPreparation();
      r := Done;
    }

    method ClearDeviceSelection() returns (r: Result)
      requires Calm(View())
      modifies profiles, models
      ensures var t := Shared(old(View()), None); View() == t.0 && r == t.1
      ensures Honoured(r, true)
    {
      hide Clean, Agree, Ready;
      SharedHonoured(View(), None);
      r := SelectWithoutProfile(None);
    }

    method SelectVolumeMode(mode: string) returns (r: Result)
      requires Calm(View())
      modifies profiles, models
      ensures var t := VolumeModeSelected(old(View()), mode); View() == t.0 && r == t.1
      ensures Honoured(r, false)
    {
      hide Clean, Agree, Ready;
      IntentHonoured(View(), NOWHERE, Intent.SelectVolumeMode(mode));
      hide Shared, Strip, Lower;
      var normalized := Lower(Strip(mode));
      var p := SelectedProfile(View());
      if normalized == "software" {
        if p.Some? && p.value.volume.Software? {
          return Done;
        }
        if profiles.selection.device.None? {
          r := SelectSharedOutput();
          return;
        }
      }
      if normalized == "fixed" && p.Some? && p.value.volume.Fixed? {
        return Done;
      }
      r := Denied(VolumeModeUnavailable);
    }
  }
}
