/** The user's output intents: what each one makes of the saved selection, the registry's and
    the session's. */
module OutputIntents {
  import opened Wrappers
  import opened Texts
  import opened CarrierPlanning
  import Observed = DeviceObservations
  import TextOrder

  datatype OutputProfile = OutputProfile(id: string, device: Option<string>, path: Path, volume: VolumePolicy, fallback: Fallback,
                                         fallbackDevice: Option<string>, resyncDelayMs: int, allowProcessing: bool)

  datatype Selection = Selection(profile: Option<string>, device: Option<string>)

  /** The profile service with its repository.  `keepsProcessing`: does the repository store the
      `allow_processing` flag of a profile? */
  datatype Service = Service(profiles: seq<OutputProfile>, selection: Selection, keepsProcessing: bool,
                             revision: nat, depth: nat, pending: bool, notified: nat)

  /** `cancelled` counts the pending preparations that were superseded. */
  datatype State = State(service: Service, registry: Option<string>, session: Selection, cancelled: nat)

  datatype Device = Device(available: bool, playback: bool)

  /** What the intents consult: the known devices, whether GStreamer is the active engine, and
      the digest in generated profile names. */
  datatype Surroundings = Surroundings(devices: map<string, Device>, gstreamer: bool, digest: string -> string)

  datatype Refusal = ProfileUnknown | DeviceMissing | DeviceUnknown | DeviceUnplugged | NotPlaybackCapable | PathModeUnknown
                   | VolumeModeUnavailable | ResyncDelayInvalid | DirectProfileRequired | ProfileMismatch | ProfileInvalid
                   | EngineUnsuited | InvalidValue

  datatype Result = Done | Denied(reason: Refusal)

  // ---------------------------------------------------------------------------
  // Texts
  // ---------------------------------------------------------------------------

  const RAW_NAMES := {"default", "null", "pipewire", "pulse"}
  const RAW_PREFIXES := ["hw:", "plughw:", "default:", "sysdefault:", "front:", "surround", "dmix:", "dsnoop:", "null:", "pipewire:", "pulse:"]

  /** A raw ALSA name is never a device identity. */
  predicate Ephemeral(value: Option<string>) {
    value.Some? && var n := Lower(Strip(value.value));
                   n in RAW_NAMES || exists i :: 0 <= i < |RAW_PREFIXES| && RAW_PREFIXES[i] <= n
  }

  // ---------------------------------------------------------------------------
  // AudioOutputProfileService
  // ---------------------------------------------------------------------------

  function Notify(s: Service): Service {
    if s.depth > 0 then s.(pending := true) else s.(notified := s.notified + 1)
  }

  function BatchOpened(s: Service): Service {
    s.(depth := s.depth + 1)
  }

  function BatchClosed(s: Service): Service
    requires s.depth > 0
  {
    var d := s.(depth := s.depth - 1);
    if d.depth == 0 && d.pending then Notify(d.(pending := false)) else d
  }

  /** Profiles are kept in the order of their names; a name is kept once. */
  function Put(ps: seq<OutputProfile>, p: OutputProfile): seq<OutputProfile> {
    if ps == [] then [p]
    else if ps[0].id == p.id then [p] + ps[1..]
    else if TextOrder.Before(p.id, ps[0].id) then [p] + ps
    else [ps[0]] + Put(ps[1..], p)
  }

  function Lookup(ps: seq<OutputProfile>, id: Option<string>): Option<OutputProfile> {
    if ps == [] || id.None? then None else if ps[0].id == id.value then Some(ps[0]) else Lookup(ps[1..], id)
  }

  function Kept(s: Service, p: OutputProfile): OutputProfile {
    if s.keepsProcessing then p else p.(allowProcessing := false)
  }

  predicate ProfileRejected(p: OutputProfile) {
    || Ephemeral(p.device)
    || Ephemeral(p.fallbackDevice)
    || p.resyncDelayMs < 0
    || (p.fallback.SpecificDevice? && !Observed.Present(p.fallbackDevice))
  }

  function ProfileSaved(s: Service, p: OutputProfile): Service {
    Notify(s.(profiles := Put(s.profiles, Kept(s, p)), revision := s.revision + 1))
  }

  function SelectionSaved(s: Service, selection: Selection): Service {
    Notify(s.(selection := selection, revision := s.revision + 1))
  }

  datatype Snapshot = Snapshot(revision: nat, selection: Selection, path: Option<Path>, resyncDelayMs: Option<int>)

  function SnapshotOf(s: Service): Snapshot {
    var p := Lookup(s.profiles, s.selection.profile);
    Snapshot(s.revision, s.selection, if p.Some? then Some(p.value.path) else None, if p.Some? then Some(p.value.resyncDelayMs) else None)
  }

  // ---------------------------------------------------------------------------
  // Building blocks of the intents
  // ---------------------------------------------------------------------------

  function Opened(s: State): State {
    s.(service := BatchOpened(s.service))
  }

  function Closed(s: State): State
    requires s.service.depth > 0
  {
    s.(service := BatchClosed(s.service))
  }

  /** Repository first, then the registry, then the session. */
  function Aligned(s: State, selection: Selection): State {
    s.(service := SelectionSaved(s.service, selection), registry := selection.device, session := selection)
  }

  function Superseded(s: State): State {
    s.(cancelled := s.cancelled + 1)
  }

  function DeviceRefusal(e: Surroundings, id: string): Option<Refusal> {
    if id !in e.devices then Some(DeviceUnknown)
    else if !e.devices[id].available then Some(DeviceUnplugged)
    else if !e.devices[id].playback then Some(NotPlaybackCapable)
    else None
  }

  predicate DeviceFamily(p: Path) {
    IsDirect(p) || p.Managed?
  }

  function EngineRefusal(e: Surroundings, p: OutputProfile): Option<Refusal> {
    if !e.gstreamer && DeviceFamily(p.path) then Some(EngineUnsuited) else None
  }

  function SelectedProfile(s: State): Option<OutputProfile> {
    Lookup(s.service.profiles, s.service.selection.profile)
  }

  /** A selection without a profile, in a batch of its own. */
  function Shared(s: State, device: Option<string>): (State, Result) {
    if Ephemeral(device) then (s, Denied(InvalidValue))
    else (Superseded(Closed(Aligned(Opened(s), Selection(None, device)))), Done)
  }

  function ProfileSelected(s: State, e: Surroundings, p: OutputProfile, device: string): (State, Result) {
    if p.device != Some(device) then (s, Denied(ProfileMismatch))
    else if p.path.Managed? && (!p.allowProcessing || !p.fallback.Stop?) then (s, Denied(ProfileInvalid))
    else if EngineRefusal(e, p).Some? then (s, Denied(EngineUnsuited))
    else if Ephemeral(Some(device)) then (s, Denied(InvalidValue))
    else (Superseded(Aligned(s, Selection(Some(p.id), Some(device)))), Done)
  }

  function FirstFor(ps: seq<OutputProfile>, device: string, path: Path): Option<OutputProfile> {
    if ps == [] then None
    else if ps[0].device == Some(device) && ps[0].path == path then Some(ps[0])
    else FirstFor(ps[1..], device, path)
  }

  /** The profile already selected if it fits, else the first that does. */
  function CandidateFor(s: State, device: string, path: Path): Option<OutputProfile> {
    var selected := SelectedProfile(s);
    if selected.Some? && selected.value.device == Some(device) && selected.value.path == path then selected
    else FirstFor(s.service.profiles, device, path)
  }

  function PolicyProfile(e: Surroundings, device: string, path: Path): OutputProfile {
    if path.Managed? then OutputProfile("managed:" + e.digest(device), Some(device), path, Software, Stop, None, 0, true)
    else
      var prefix := if path.HardwareDirectCompatible? then "compatible:" else "direct:";
      OutputProfile(prefix + e.digest(device), Some(device), path, Fixed, Stop, None, 0, false)
  }

  /** `_select_device_policy`: one profile per device and policy, made when there is none. */
  function PolicySelected(s: State, e: Surroundings, device: string, path: Path): (State, Result)
    requires DeviceFamily(path)
  {
    var refusal := DeviceRefusal(e, device);
    if refusal.Some? then (s, Denied(refusal.value))
    else
      var candidate := CandidateFor(s, device, path);
      if candidate.Some? then ProfileSelected(s, e, candidate.value, device)
      else
        var p := PolicyProfile(e, device, path);
        if path.Managed? && Strip(device) == "" then (s, Denied(InvalidValue))
        else if EngineRefusal(e, p).Some? then (s, Denied(EngineUnsuited))
        else if ProfileRejected(p) then (s, Denied(InvalidValue))
        else ProfileSelected(s.(service := ProfileSaved(s.service, p)), e, p, device)
  }

  // ---------------------------------------------------------------------------
  // The intents
  // ---------------------------------------------------------------------------

  datatype Intent =
    | SelectSharedOutput
    | ClearDeviceSelection
    | SelectDevice(device: string)
    | SelectDeviceForPlayback(device: string)
    | SelectProfile(profile: string)
    | SelectPathMode(mode: string)
    | SelectVolumeMode(mode: string)
    | SetResyncDelay(value: int)

  function BatchedPolicy(s: State, e: Surroundings, device: string, path: Path): (State, Result)
    requires DeviceFamily(path)
  {
    var (z, r) := PolicySelected(Opened(s), e, device, path);
    (if z.service.depth > 0 then Closed(z) else z, r)
  }

  function DeviceSelected(s: State, e: Surroundings, device: string): (State, Result) {
    var refusal := DeviceRefusal(e, device);
    var current := SelectedProfile(s);
    if refusal.Some? then (s, Denied(refusal.value))
    else if current.None? || !DeviceFamily(current.value.path) then Shared(s, Some(device))
    else BatchedPolicy(s, e, device, current.value.path)
  }

  function PlaybackDeviceSelected(s: State, e: Surroundings, device: string): (State, Result) {
    var current := SelectedProfile(s);
    BatchedPolicy(s, e, device, if current.Some? && current.value.path.Managed? then Managed else HardwareDirectCompatible)
  }

  function NamedProfileSelected(s: State, e: Surroundings, id: string): (State, Result) {
    var p := Lookup(s.service.profiles, Some(id));
    if p.None? then (s, Denied(ProfileUnknown))
    else if p.value.device.None? then
      if DeviceFamily(p.value.path) then (s, Denied(DeviceMissing)) else Shared(s, s.service.selection.device)
    else
      var device := p.value.device.value;
      var refusal := DeviceRefusal(e, device);
      if refusal.Some? then (s, Denied(refusal.value))
      else
        var (z, r) := ProfileSelected(Opened(s), e, p.value, device);
        (if z.service.depth > 0 then Closed(z) else z, r)
  }

  function Dashed(s: string): string {
    seq(|s|, i requires 0 <= i < |s| => if s[i] == '-' then '_' else s[i])
  }

  function PathPolicy(mode: string): Option<Path> {
    if mode == "strict" || mode == "direct" then Some(HardwareDirect)
    else if mode == "compatible" || mode == "compatible_direct" then Some(HardwareDirectCompatible)
    else if mode == "managed" || mode == "managed_pcm" then Some(Managed)
    else None
  }

  function PathModeSelected(s: State, e: Surroundings, mode: string): (State, Result) {
    var normalized := Dashed(Lower(Strip(mode)));
    if normalized == "shared" then Shared(s, s.service.selection.device)
    else
      var policy := PathPolicy(normalized);
      if policy.None? then (s, Denied(PathModeUnknown))
      else if s.service.selection.device.None? then (s, Denied(DeviceMissing))
      else
        var device := s.service.selection.device.value;
        var refusal := DeviceRefusal(e, device);
        if refusal.Some? then (s, Denied(refusal.value)) else BatchedPolicy(s, e, device, policy.value)
  }

  function VolumeModeSelected(s: State, mode: string): (State, Result) {
    var normalized := Lower(Strip(mode));
    var p := SelectedProfile(s);
    if normalized == "software" && p.Some? && p.value.volume.Software? then (s, Done)
    else if normalized == "software" && s.service.selection.device.None? then Shared(s, None)
    else if normalized == "fixed" && p.Some? && p.value.volume.Fixed? then (s, Done)
    else (s, Denied(VolumeModeUnavailable))
  }

  function ResyncDelaySet(s: State, value: int): (State, Result) {
    var p := SelectedProfile(s);
    if value < 0 || value > 5_000 then (s, Denied(ResyncDelayInvalid))
    else if p.None? || !IsDirect(p.value.path) then (s, Denied(DirectProfileRequired))
    else
      var q := p.value.(resyncDelayMs := value);
      if ProfileRejected(q) then (s, Denied(InvalidValue))
      else (Superseded(Closed(Opened(s).(service := ProfileSaved(Opened(s).service, q)))), Done)
  }

  function Intended(s: State, e: Surroundings, intent: Intent): (State, Result) {
    match intent
    case SelectSharedOutput => Shared(s, s.service.selection.device)
    case ClearDeviceSelection => Shared(s, None)
    case SelectDevice(device) =>
      if Strip(device) == "" then Shared(s, s.service.selection.device) else DeviceSelected(s, e, Strip(device))
    case SelectDeviceForPlayback(device) =>
      if Strip(device) == "" then Shared(s, s.service.selection.device) else PlaybackDeviceSelected(s, e, Strip(device))
    case SelectProfile(profile) => NamedProfileSelected(s, e, profile)
    case SelectPathMode(mode) => PathModeSelected(s, e, mode)
    case SelectVolumeMode(mode) => VolumeModeSelected(s, mode)
    case SetResyncDelay(value) => ResyncDelaySet(s, value)
  }

  // ---------------------------------------------------------------------------
  // Agreement
  // ---------------------------------------------------------------------------

  /** Repository, registry and session say the same, and a selected profile is one of the
      repository that belongs to the selected device. */
  ghost predicate Agree(s: State) {
    && s.registry == s.service.selection.device
    && s.session == s.service.selection
    && (s.service.selection.profile.Some? ==>
          && SelectedProfile(s).Some?
          && SelectedProfile(s).value.device == s.service.selection.device
          && s.service.selection.device.Some?)
  }

  /** Outside a batch nothing is pending. */
  predicate Calm(s: State) {
    s.service.depth == 0 ==> !s.service.pending
  }

  /** The repository holds no more than it keeps, in the order of the names. */
  ghost predicate RepositoryOk(s: Service) {
    && Ascending(s.profiles)
    && (!s.keepsProcessing ==> forall i :: 0 <= i < |s.profiles| ==> !s.profiles[i].allowProcessing)
  }

  ghost predicate Unwritten(a: Service, b: Service) {
    b.profiles == a.profiles && b.selection == a.selection
  }

  lemma {:induction false} PutLookup(ps: seq<OutputProfile>, p: OutputProfile, id: string)
    ensures Lookup(Put(ps, p), Some(id)) == if id == p.id then Some(p) else Lookup(ps, Some(id))
  {
    hide TextOrder.Before;
    if ps != [] {
      PutLookup(ps[1..], p, id);
    }
  }

  lemma {:induction false} LookupHas(ps: seq<OutputProfile>, id: Option<string>)
    requires Lookup(ps, id).Some?
    ensures id.Some? && Lookup(ps, id).value.id == id.value
  {
    if ps[0].id != id.value {
      LookupHas(ps[1..], id);
    }
  }

  // ---------------------------------------------------------------------------
  // What every intent does
  // ---------------------------------------------------------------------------

  predicate Selects(intent: Intent) {
    !intent.SelectVolumeMode? && !intent.SetResyncDelay?
  }

  /** A refused intent changes nothing at all; a completed one publishes once if it wrote, and
      leaves revision and repository as they were if it did not. */
  ghost predicate Clean(s: State, z: State, r: Result) {
    && (r.Denied? ==> z == s)
    && z.service.depth == s.service.depth
    && z.service.keepsProcessing == s.service.keepsProcessing
    && s.service.revision <= z.service.revision
    && (z.service.revision == s.service.revision ==> Unwritten(s.service, z.service))
    && (s.service.depth == 0 ==>
          z.service.notified == s.service.notified + (if z.service.revision > s.service.revision then 1 else 0) && !z.service.pending)
    && RepositoryOk(z.service)
  }

  ghost predicate Ready(s: State) {
    Calm(s) && RepositoryOk(s.service)
  }

  lemma SharedKept(s: State, device: Option<string>)
    requires Ready(s)
    ensures var (z, r) := Shared(s, device); Clean(s, z, r) && (r.Done? ==> Agree(z) && z.service.selection == Selection(None, device))
  {
    hide Ephemeral;
  }

  /** Inside the batch: what selecting a profile of the repository does. */
  ghost predicate Selected(s: State, z: State, r: Result, p: OutputProfile) {
    && (r.Denied? ==> z == s)
    && (r.Done? ==> z == Superseded(Aligned(s, Selection(Some(p.id), p.device))) && p.device.Some?)
  }

  lemma ProfileSelectedKept(s: State, e: Surroundings, p: OutputProfile, device: string)
    ensures var (z, r) := ProfileSelected(s, e, p, device); Selected(s, z, r, p)
  {
    hide Ephemeral;
  }

  /** Selecting a profile that the repository holds, in a batch opened for it. */
  lemma BatchedSelection(s: State, z: State, r: Result, p: OutputProfile)
    requires Ready(s) && Selected(Opened(s), z, r, p)
    requires Lookup(s.service.profiles, Some(p.id)).Some? && Lookup(s.service.profiles, Some(p.id)).value.device == p.device
    ensures z.service.depth > 0 && Clean(s, Closed(z), r) && (r.Done? ==> Agree(Closed(z)))
  {
  }

  lemma {:induction false} FirstForHeld(ps: seq<OutputProfile>, device: string, path: Path)
    requires FirstFor(ps, device, path).Some?
    ensures FirstFor(ps, device, path).value in ps
    ensures FirstFor(ps, device, path).value.device == Some(device) && FirstFor(ps, device, path).value.path == path
  {
    if !(ps[0].device == Some(device) && ps[0].path == path) {
      FirstForHeld(ps[1..], device, path);
    }
  }

  /** The repository lists profiles by name, each once. */
  ghost predicate Ascending(ps: seq<OutputProfile>) {
    forall i, j :: 0 <= i < j < |ps| ==> TextOrder.Before(ps[i].id, ps[j].id)
  }

  lemma {:induction false} PutAscends(ps: seq<OutputProfile>, p: OutputProfile)
    requires Ascending(ps)
    ensures Ascending(Put(ps, p))
    ensures forall x :: x in Put(ps, p) ==> x == p || x in ps
  {
    hide TextOrder.Before;
    if ps != [] {
      PutAscends(ps[1..], p);
      TextOrder.BeforeTotal(p.id, ps[0].id);
      if ps[0].id == p.id {
      } else if TextOrder.Before(p.id, ps[0].id) {
        forall j | 0 <= j < |ps|
          ensures TextOrder.Before(p.id, ps[j].id)
        {
          if j > 0 {
            TextOrder.BeforeTransitive(p.id, ps[0].id, ps[j].id);
          }
        }
      } else {
        forall x | x in Put(ps[1..], p)
          ensures TextOrder.Before(ps[0].id, x.id)
        {
          if x != p {
            var i :| 0 <= i < |ps[1..]| && ps[1..][i] == x;
            assert ps[i + 1] == x;
          }
        }
      }
    }
  }

  lemma {:induction false} LookupUnique(ps: seq<OutputProfile>, p: OutputProfile)
    requires Ascending(ps) && p in ps
    ensures Lookup(ps, Some(p.id)) == Some(p)
  {
    hide TextOrder.Before;
    if ps[0] != p {
      var i :| 0 <= i < |ps| && ps[i] == p;
      assert ps[1..][i - 1] == p;
      TextOrder.BeforeIrreflexive(p.id);
      LookupUnique(ps[1..], p);
    }
  }

  lemma CandidateHeld(s: State, device: string, path: Path)
    requires Ascending(s.service.profiles) && CandidateFor(s, device, path).Some?
    ensures var p := CandidateFor(s, device, path).value;
            Lookup(s.service.profiles, Some(p.id)) == Some(p) && p.device == Some(device) && p.path == path
  {
    var selected := SelectedProfile(s);
    if selected.Some? && selected.value.device == Some(device) && selected.value.path == path {
      LookupHas(s.service.profiles, s.service.selection.profile);
    } else {
      FirstForHeld(s.service.profiles, device, path);
      LookupUnique(s.service.profiles, FirstFor(s.service.profiles, device, path).value);
    }
  }

  lemma {:induction false} PutKeepsOk(ps: seq<OutputProfile>, p: OutputProfile)
    requires !p.allowProcessing && forall i :: 0 <= i < |ps| ==> !ps[i].allowProcessing
    ensures forall i :: 0 <= i < |Put(ps, p)| ==> !Put(ps, p)[i].allowProcessing
  {
    hide TextOrder.Before;
    if ps != [] {
      PutKeepsOk(ps[1..], p);
    }
  }

  lemma SavedRepositoryOk(s: Service, p: OutputProfile)
    requires RepositoryOk(s)
    ensures RepositoryOk(ProfileSaved(s, p))
  {
    hide Ascending, Put;
    PutAscends(s.profiles, Kept(s, p));
    if !s.keepsProcessing {
      PutKeepsOk(s.profiles, Kept(s, p));
    }
  }

  /** A profile made for the device and selected in the same batch. */
  lemma MadeAndSelected(s: State, e: Surroundings, device: string, path: Path)
    requires Ready(s) && DeviceFamily(path)
    requires var p := PolicyProfile(e, device, path); EngineRefusal(e, p).None? && !ProfileRejected(p)
    ensures var p := PolicyProfile(e, device, path);
            var saved := Opened(s).(service := ProfileSaved(Opened(s).service, p));
            var (z, r) := ProfileSelected(saved, e, p, device);
            && r.Done? && z.service.depth > 0 && Clean(s, Closed(z), r) && Agree(Closed(z))
  {
    hide Ephemeral, Put, Lookup;
    var p := PolicyProfile(e, device, path);
    var o := Opened(s).service;
    SavedRepositoryOk(o, p);
    PutLookup(o.profiles, Kept(o, p), p.id);
  }

  lemma PolicyKept(s: State, e: Surroundings, device: string, path: Path)
    requires Ready(s) && DeviceFamily(path)
    ensures var (z, r) := BatchedPolicy(s, e, device, path); Clean(s, z, r) && (r.Done? ==> Agree(z))
  {
    hide Clean, Agree, ProfileSelected, CandidateFor, DeviceRefusal, ProfileRejected, Strip;
    var o := Opened(s);
    DeniedKept(s);
    var candidate := CandidateFor(o, device, path);
    if DeviceRefusal(e, device).Some? {
    } else if candidate.Some? {
      CandidateHeld(o, device, path);
      ProfileSelectedKept(o, e, candidate.value, device);
      var (z, r) := ProfileSelected(o, e, candidate.value, device);
      BatchedSelection(s, z, r, candidate.value);
    } else {
      var p := PolicyProfile(e, device, path);
      if EngineRefusal(e, p).None? && !ProfileRejected(p) {
        MadeAndSelected(s, e, device, path);
      }
    }
  }

  lemma DeniedKept(s: State)
    requires Ready(s)
    ensures Opened(s).service.depth > 0 && Closed(Opened(s)) == s
    ensures forall reason :: Clean(s, s, Denied(reason))
  {
  }

  lemma NamedProfileKept(s: State, e: Surroundings, id: string)
    requires Ready(s)
    ensures var (z, r) := NamedProfileSelected(s, e, id); Clean(s, z, r) && (r.Done? ==> Agree(z))
  {
    hide Clean, Agree, ProfileSelected, Shared, DeviceRefusal;
    DeniedKept(s);
    SharedKept(s, s.service.selection.device);
    var p := Lookup(s.service.profiles, Some(id));
    if p.Some? && p.value.device.Some? {
      LookupHas(s.service.profiles, Some(id));
      ProfileSelectedKept(Opened(s), e, p.value, p.value.device.value);
      var (z, r) := ProfileSelected(Opened(s), e, p.value, p.value.device.value);
      BatchedSelection(s, z, r, p.value);
    }
  }

  lemma ResyncKept(s: State, value: int)
    requires Ready(s)
    ensures var (z, r) := ResyncDelaySet(s, value); Clean(s, z, r) && (Agree(s) ==> Agree(z))
  {
    hide Put, Lookup, ProfileRejected;
    var p := SelectedProfile(s);
    if p.Some? && IsDirect(p.value.path) {
      var q := p.value.(resyncDelayMs := value);
      LookupHas(s.service.profiles, s.service.selection.profile);
      SavedRepositoryOk(Opened(s).service, q);
      PutLookup(s.service.profiles, Kept(s.service, q), q.id);
    }
  }

  lemma VolumeKept(s: State, mode: string)
    requires Ready(s)
    ensures var (z, r) := VolumeModeSelected(s, mode); Clean(s, z, r) && (Agree(s) ==> Agree(z))
  {
    hide Clean, Agree, Shared, Strip, Lower;
    DeniedKept(s);
    SharedKept(s, None);
    UnchangedClean(s);
    SharedDeniedSame(s, None);
  }

  lemma UnchangedClean(s: State)
    requires Ready(s)
    ensures Clean(s, s, Done)
  {
  }

  lemma SharedDeniedSame(s: State, device: Option<string>)
    ensures Shared(s, device).1.Denied? ==> Shared(s, device).0 == s
  {
    hide Ephemeral;
  }

  /** Every intent, in any surroundings: refused it changes nothing; done it publishes once per
      outermost batch that wrote; a selecting one makes repository, registry and session agree,
      and no other one breaks that. */
  lemma IntentKept(s: State, e: Surroundings, intent: Intent)
    requires Ready(s)
    ensures var (z, r) := Intended(s, e, intent);
            && Clean(s, z, r)
            && (Selects(intent) && r.Done? ==> Agree(z))
            && (Agree(s) ==> Agree(z))
  {
    hide Clean, Agree, Shared, BatchedPolicy, DeviceRefusal, Strip, Lower, Dashed, PathPolicy, NamedProfileSelected,
         ResyncDelaySet, VolumeModeSelected;
    DeniedKept(s);
    DeniedAgrees(s, Intended(s, e, intent).0, Intended(s, e, intent).1);
    match intent
    case SelectSharedOutput => SharedKept(s, s.service.selection.device);
    case ClearDeviceSelection => SharedKept(s, None);
    case SelectDevice(device) =>
      SharedKept(s, s.service.selection.device);
      SharedKept(s, Some(Strip(device)));
      var current := SelectedProfile(s);
      if current.Some? && DeviceFamily(current.value.path) {
        PolicyKept(s, e, Strip(device), current.value.path);
      }
    case SelectDeviceForPlayback(device) =>
      SharedKept(s, s.service.selection.device);
      PolicyKept(s, e, Strip(device), Managed);
      PolicyKept(s, e, Strip(device), HardwareDirectCompatible);
    case SelectProfile(profile) => NamedProfileKept(s, e, profile);
    case SelectPathMode(mode) =>
      SharedKept(s, s.service.selection.device);
      var policy := PathPolicy(Dashed(Lower(Strip(mode))));
      PathPolicyFamily(Dashed(Lower(Strip(mode))));
      if policy.Some? && s.service.selection.device.Some? {
        PolicyKept(s, e, s.service.selection.device.value, policy.value);
      }
    case SelectVolumeMode(mode) => VolumeKept(s, mode);
    case SetResyncDelay(value) => ResyncKept(s, value);
  }

  lemma PathPolicyFamily(mode: string)
    ensures PathPolicy(mode).Some? ==> DeviceFamily(PathPolicy(mode).value)
  {
  }

  lemma DeniedAgrees(s: State, z: State, r: Result)
    ensures Clean(s, z, r) && r.Denied? && Agree(s) ==> Agree(z)
  {
  }
}
