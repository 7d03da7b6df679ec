/** What each completed intent leaves selected, and when each one is refused. */
module OutputOutcomes {
  import opened Wrappers
  import opened Texts
  import opened CarrierPlanning
  import opened OutputIntents
  import opened OutputRuns
  import Observed = DeviceObservations
  import TextOrder

  // ---------------------------------------------------------------------------
  // Devices, names, profiles
  // ---------------------------------------------------------------------------

  ghost predicate Playable(e: Surroundings, id: string) {
    id in e.devices && e.devices[id].available && e.devices[id].playback
  }

  lemma DeviceRefusalIff(e: Surroundings, id: string)
    ensures DeviceRefusal(e, id).None? <==> Playable(e, id)
    ensures DeviceRefusal(e, id) == Some(DeviceUnknown) <==> id !in e.devices
    ensures DeviceRefusal(e, id) == Some(DeviceUnplugged) <==> id in e.devices && !e.devices[id].available
    ensures DeviceRefusal(e, id) == Some(NotPlaybackCapable) <==>
              id in e.devices && e.devices[id].available && !e.devices[id].playback
  {
  }

  /** The names no device identity may have, whatever blanks and capitals they are written with. */
  lemma EphemeralIff(name: string)
    ensures var n := Lower(Strip(name));
            Ephemeral(Some(name)) <==>
              || n == "default" || n == "null" || n == "pipewire" || n == "pulse"
              || "hw:" <= n || "plughw:" <= n || "default:" <= n || "sysdefault:" <= n || "front:" <= n || "surround" <= n
              || "dmix:" <= n || "dsnoop:" <= n || "null:" <= n || "pipewire:" <= n || "pulse:" <= n
  {
    hide Strip, Lower;
    var n := Lower(Strip(name));
    assert RAW_PREFIXES[0] == "hw:" && RAW_PREFIXES[1] == "plughw:" && RAW_PREFIXES[2] == "default:";
    assert RAW_PREFIXES[3] == "sysdefault:" && RAW_PREFIXES[4] == "front:" && RAW_PREFIXES[5] == "surround";
    assert RAW_PREFIXES[6] == "dmix:" && RAW_PREFIXES[7] == "dsnoop:" && RAW_PREFIXES[8] == "null:";
    assert RAW_PREFIXES[9] == "pipewire:" && RAW_PREFIXES[10] == "pulse:";
  }

  lemma RejectedIff(p: OutputProfile)
    ensures ProfileRejected(p) <==>
              || (p.device.Some? && Ephemeral(p.device)) || (p.fallbackDevice.Some? && Ephemeral(p.fallbackDevice))
              || p.resyncDelayMs < 0
              || (p.fallback == SpecificDevice && (p.fallbackDevice.None? || |p.fallbackDevice.value| == 0))
  {
    hide Strip, Lower;
  }

  /** The profiles made for a policy: a direct one fixes the volume, a managed one processes, and
      none falls back anywhere. */
  lemma MadeProfile(e: Surroundings, device: string, path: Path)
    requires path in {HardwareDirect, HardwareDirectCompatible, Managed}
    ensures var p := PolicyProfile(e, device, path);
            && p.device == Some(device) && p.path == path && p.fallback == Stop && p.fallbackDevice == None && p.resyncDelayMs == 0
            && p.volume == (if path == Managed then Software else Fixed)
            && p.allowProcessing == (path == Managed)
            && (path == HardwareDirect ==> p.id == "direct:" + e.digest(device))
            && (path == HardwareDirectCompatible ==> p.id == "compatible:" + e.digest(device))
            && (path == Managed ==> p.id == "managed:" + e.digest(device))
  {
  }

  ghost predicate Fits(p: OutputProfile, device: string, path: Path) {
    p.device == Some(device) && p.path == path
  }

  lemma {:induction false} FirstForLeast(ps: seq<OutputProfile>, device: string, path: Path)
    requires Ascending(ps)
    ensures FirstFor(ps, device, path).None? <==> forall p :: p in ps ==> !Fits(p, device, path)
    ensures forall p :: p in ps && Fits(p, device, path) ==>
              p == FirstFor(ps, device, path).value || TextOrder.Before(FirstFor(ps, device, path).value.id, p.id)
  {
    hide TextOrder.Before;
    if ps != [] {
      assert ps == [ps[0]] + ps[1..];
      FirstForLeast(ps[1..], device, path);
      if Fits(ps[0], device, path) {
        forall p | p in ps && p != ps[0]
          ensures TextOrder.Before(ps[0].id, p.id)
        {
          var i :| 0 <= i < |ps| && ps[i] == p;
        }
      }
    }
  }

  /** The profile a policy reuses: the selected one if it fits, else the first by name that does. */
  lemma CandidateIs(s: State, device: string, path: Path)
    requires Ascending(s.service.profiles)
    ensures var c, current := CandidateFor(s, device, path), SelectedProfile(s);
            && (c.None? <==> forall p :: p in s.service.profiles ==> !Fits(p, device, path))
            && (c.Some? ==> c.value in s.service.profiles && Fits(c.value, device, path))
            && (current.Some? && Fits(current.value, device, path) ==> c == current)
            && (!(current.Some? && Fits(current.value, device, path)) ==>
                  forall p :: p in s.service.profiles && Fits(p, device, path) ==>
                    p == c.value || TextOrder.Before(c.value.id, p.id))
  {
    hide TextOrder.Before, Lookup, FirstFor;
    FirstForLeast(s.service.profiles, device, path);
    var current := SelectedProfile(s);
    if current.Some? {
      LookupMember(s.service.profiles, s.service.selection.profile);
    }
    if FirstFor(s.service.profiles, device, path).Some? {
      FirstForHeld(s.service.profiles, device, path);
    }
  }

  // ---------------------------------------------------------------------------
  // Selecting a policy for a device
  // ---------------------------------------------------------------------------

  ghost predicate Permits(p: OutputProfile) {
    p.path == Managed ==> p.allowProcessing && p.fallback == Stop
  }

  lemma FitsOrNone(s: State, device: string, path: Path)
    ensures var c := CandidateFor(s, device, path); c.Some? ==> Fits(c.value, device, path)
  {
    hide Lookup;
    if FirstFor(s.service.profiles, device, path).Some? {
      FirstForHeld(s.service.profiles, device, path);
    }
  }

  /** A policy is selected exactly on a playable device with a stable name, with GStreamer active,
      and on a profile that permits it, the one it reuses or one it makes; and which refusal it
      meets first otherwise. */
  lemma PolicyDoneIff(s: State, e: Surroundings, device: string, path: Path)
    requires path in {HardwareDirect, HardwareDirectCompatible, Managed}
    ensures var c, r := CandidateFor(s, device, path), BatchedPolicy(s, e, device, path).1;
            var permitted := c.Some? ==> Permits(c.value);
            var named := c.None? && path == Managed ==> Strip(device) != "";
            && (r == Done <==> Playable(e, device) && e.gstreamer && !Ephemeral(Some(device)) && permitted && named)
            && (!Playable(e, device) ==> DeviceRefusal(e, device).Some? && r == Denied(DeviceRefusal(e, device).value))
            && (r == Denied(ProfileInvalid) <==> Playable(e, device) && !permitted)
            && (r == Denied(EngineUnsuited) <==> Playable(e, device) && permitted && named && !e.gstreamer)
            && (r == Denied(InvalidValue) <==>
                  Playable(e, device) && permitted && (!named || (e.gstreamer && Ephemeral(Some(device)))))
  {
    hide Ephemeral, Strip, Lookup, FirstFor, Put;
    DeviceRefusalIff(e, device);
    assert CandidateFor(Opened(s), device, path) == CandidateFor(s, device, path);
    FitsOrNone(s, device, path);
    MadeProfile(e, device, path);
    RejectedIff(PolicyProfile(e, device, path));
  }

  /** The state routes through a profile of the device with this policy. */
  ghost predicate Routes(z: State, device: string, path: Path) {
    && z.service.selection.device == Some(device)
    && SelectedProfile(z).Some? && SelectedProfile(z).value.device == Some(device) && SelectedProfile(z).value.path == path
  }

  lemma PolicyRoutes(s: State, e: Surroundings, device: string, path: Path)
    requires Ready(s) && path in {HardwareDirect, HardwareDirectCompatible, Managed}
    ensures BatchedPolicy(s, e, device, path).1.Done? ==> Routes(BatchedPolicy(s, e, device, path).0, device, path)
  {
    hide BatchedPolicy, Ephemeral, Ready, DeviceRefusal, EngineRefusal, Lookup;
    if BatchedPolicy(s, e, device, path).1.Done? {
      PolicyLeaves(s, e, device, path);
    }
  }

  // ---------------------------------------------------------------------------
  // What each completed intent leaves selected
  // ---------------------------------------------------------------------------

  lemma SharedIs(s: State, device: Option<string>)
    ensures var (z, r) := Shared(s, device);
            && (r == Done <==> !Ephemeral(device)) && (r.Denied? ==> r == Denied(InvalidValue))
            && (r.Done? ==> z.service.selection == Selection(None, device))
  {
    hide Ephemeral;
  }

  /** Shared output drops the profile and keeps the device; clearing drops both. */
  lemma SharedLeaves(s: State, e: Surroundings)
    ensures var (z, r) := Intended(s, e, SelectSharedOutput);
            (r == Done <==> !Ephemeral(s.service.selection.device))
            && (r.Done? ==> z.service.selection == Selection(None, s.service.selection.device))
    ensures var (z, r) := Intended(s, e, ClearDeviceSelection); r == Done && z.service.selection == Selection(None, None)
  {
    hide Ephemeral, Shared;
    SharedIs(s, s.service.selection.device);
    SharedIs(s, None);
    NoDeviceIsStable();
  }

  /** Selecting a device keeps the policy in force: that of the selected profile if it is one of
      a device, and none otherwise. */
  lemma SelectDeviceLeaves(s: State, e: Surroundings, device: string)
    requires Ready(s) && Strip(device) != ""
    ensures var (z, r) := Intended(s, e, SelectDevice(device));
            var id, current := Strip(device), SelectedProfile(s);
            var bound := current.Some? && current.value.path != Desktop;
            && (!Playable(e, id) ==> DeviceRefusal(e, id).Some? && r == Denied(DeviceRefusal(e, id).value))
            && (!bound && Playable(e, id) ==> (r == Done <==> !Ephemeral(Some(id))))
            && (bound && Playable(e, id) ==> r == BatchedPolicy(s, e, id, current.value.path).1)
            && (r.Done? ==> if bound then Routes(z, id, current.value.path) else z.service.selection == Selection(None, Some(id)))
  {
    hide Ephemeral, Strip, Shared, BatchedPolicy, Lookup, Routes, DeviceRefusal, Ready;
    var id, current := Strip(device), SelectedProfile(s);
    DeviceRefusalIff(e, id);
    SharedIs(s, Some(id));
    if current.Some? && current.value.path != Desktop {
      PolicyRoutes(s, e, id, current.value.path);
      PolicyDoneIff(s, e, id, current.value.path);
    }
  }

  /** Playing through a device selects the compatible policy for it, or the managed one if a
      managed profile was selected. */
  lemma PlaybackDeviceLeaves(s: State, e: Surroundings, device: string)
    requires Ready(s) && Strip(device) != ""
    ensures var (z, r) := Intended(s, e, SelectDeviceForPlayback(device));
            var id, current := Strip(device), SelectedProfile(s);
            var path := if current.Some? && current.value.path == Managed then Managed else HardwareDirectCompatible;
            r == BatchedPolicy(s, e, id, path).1 && (r.Done? ==> Routes(z, id, path))
  {
    hide Ephemeral, Strip, Shared, BatchedPolicy, Lookup, Routes, Ready;
    PolicyRoutes(s, e, Strip(device), Managed);
    PolicyRoutes(s, e, Strip(device), HardwareDirectCompatible);
  }

  /** An empty device name means the shared output. */
  lemma NoDeviceMeansShared(s: State, e: Surroundings, device: string)
    requires Strip(device) == ""
    ensures Intended(s, e, SelectDevice(device)) == Intended(s, e, SelectSharedOutput)
    ensures Intended(s, e, SelectDeviceForPlayback(device)) == Intended(s, e, SelectSharedOutput)
  {
    hide Strip, Shared;
  }

  /** Selecting a profile by name selects that profile and its device; one without a device is the
      shared output, and is refused if it needs one. */
  lemma SelectProfileLeaves(s: State, e: Surroundings, id: string)
    requires Ready(s)
    ensures var (z, r) := Intended(s, e, SelectProfile(id));
            var p := Lookup(s.service.profiles, Some(id));
            && (p.None? <==> r == Denied(ProfileUnknown))
            && (p.Some? && p.value.device.None? ==>
                  && (r == Denied(DeviceMissing) <==> p.value.path != Desktop)
                  && (r.Done? ==> z.service.selection == Selection(None, s.service.selection.device)))
            && (p.Some? && p.value.device.Some? ==>
                  && (!Playable(e, p.value.device.value) ==> r.Denied?)
                  && (r == Denied(ProfileInvalid) <==> Playable(e, p.value.device.value) && !Permits(p.value))
                  && (r == Denied(EngineUnsuited) <==>
                        Playable(e, p.value.device.value) && Permits(p.value) && !e.gstreamer && p.value.path != Desktop)
                  && (r == Done <==>
                        Playable(e, p.value.device.value) && Permits(p.value) && !Ephemeral(p.value.device)
                        && (p.value.path == Desktop || e.gstreamer))
                  && (r.Done? ==> z.service.selection == Selection(Some(id), p.value.device)))
  {
    hide Ephemeral, Shared, Ready;
    SharedIs(s, s.service.selection.device);
    var p := Lookup(s.service.profiles, Some(id));
    if p.Some? {
      LookupHas(s.service.profiles, Some(id));
      if p.value.device.Some? {
        DeviceRefusalIff(e, p.value.device.value);
      }
    }
  }

  /** The names of the path modes, once stripped, in lower case and with underscores. */
  lemma ModesByName(mode: string)
    ensures PathPolicy(mode) == Some(HardwareDirect) <==> mode == "strict" || mode == "direct"
    ensures PathPolicy(mode) == Some(HardwareDirectCompatible) <==> mode == "compatible" || mode == "compatible_direct"
    ensures PathPolicy(mode) == Some(Managed) <==> mode == "managed" || mode == "managed_pcm"
  {
  }

  lemma DashedIs(s: string)
    ensures |Dashed(s)| == |s|
    ensures forall i :: 0 <= i < |s| ==> Dashed(s)[i] == if s[i] == '-' then '_' else s[i]
  {
  }

  /** Selecting a path mode selects that policy for the selected device. */
  lemma PathModeLeaves(s: State, e: Surroundings, mode: string)
    requires Ready(s)
    ensures var (z, r) := Intended(s, e, SelectPathMode(mode));
            var name := Dashed(Lower(Strip(mode)));
            var device := s.service.selection.device;
            if name == "shared" then (z, r) == Intended(s, e, SelectSharedOutput)
            else
              && (r == Denied(PathModeUnknown) <==> PathPolicy(name).None?)
              && (r == Denied(DeviceMissing) <==> PathPolicy(name).Some? && device.None?)
              && (PathPolicy(name).Some? && device.Some? ==>
                    r == BatchedPolicy(s, e, device.value, PathPolicy(name).value).1
                    && (r.Done? ==> Routes(z, device.value, PathPolicy(name).value)))
  {
    hide Ephemeral, Strip, Lower, Dashed, Shared, BatchedPolicy, Lookup, Routes, DeviceRefusal, Ready;
    var name := Dashed(Lower(Strip(mode)));
    ModesByName(name);
    if name != "shared" && PathPolicy(name).Some? && s.service.selection.device.Some? {
      var device := s.service.selection.device.value;
      DeviceRefusalIff(e, device);
      PolicyRoutes(s, e, device, PathPolicy(name).value);
      PolicyDoneIff(s, e, device, PathPolicy(name).value);
    }
  }

  /** A volume mode is accepted when it is the one in force, or is "software" while no device is
      selected, which selects the shared output. */
  lemma VolumeModeLeaves(s: State, e: Surroundings, mode: string)
    ensures var (z, r) := Intended(s, e, SelectVolumeMode(mode));
            var name, p := Lower(Strip(mode)), SelectedProfile(s);
            var inForce := p.Some? && ((name == "software" && p.value.volume == Software) || (name == "fixed" && p.value.volume == Fixed));
            var nowhere := name == "software" && s.service.selection.device.None?;
            && (inForce ==> r == Done && z == s)
            && (!inForce && nowhere ==> r == Done && z.service.selection == Selection(None, None))
            && (!inForce && !nowhere ==> r == Denied(VolumeModeUnavailable))
  {
    hide Ephemeral, Strip, Lower, Shared, Lookup;
    SharedIs(s, None);
    NoDeviceIsStable();
  }

  /** A delay from 0 to 5000 ms is stored in the selected direct profile, and nothing else is
      written. */
  lemma ResyncDelayLeaves(s: State, e: Surroundings, value: int)
    requires Ready(s)
    ensures var (z, r) := Intended(s, e, SetResyncDelay(value));
            var p := SelectedProfile(s);
            var direct := p.Some? && (p.value.path == HardwareDirect || p.value.path == HardwareDirectCompatible);
            && (r == Denied(ResyncDelayInvalid) <==> value < 0 || value > 5000)
            && (r == Denied(DirectProfileRequired) <==> 0 <= value <= 5000 && !direct)
            && (r == Done <==> 0 <= value <= 5000 && direct && !ProfileRejected(p.value.(resyncDelayMs := value)))
            && (r == Denied(InvalidValue) <==> 0 <= value <= 5000 && direct && ProfileRejected(p.value.(resyncDelayMs := value)))
            && (r.Done? ==>
                  && z.service.selection == s.service.selection
                  && SelectedProfile(z).Some? && SelectedProfile(z).value.resyncDelayMs == value
                  && SelectedProfile(z).value.path == p.value.path && SelectedProfile(z).value.device == p.value.device
                  && forall id :: Some(id) != s.service.selection.profile ==>
                       Lookup(z.service.profiles, Some(id)) == Lookup(s.service.profiles, Some(id)))
  {
    hide Lookup, Put, ProfileRejected, RepositoryOk;
    var p := SelectedProfile(s);
    if p.Some? {
      LookupHas(s.service.profiles, s.service.selection.profile);
      var q := Kept(s.service, p.value.(resyncDelayMs := value));
      forall id {
        PutLookup(s.service.profiles, q, id);
      }
    }
  }

  /** A pending preparation was superseded exactly if something was written. */
  ghost predicate Supersedes(s: State, z: State) {
    z.cancelled == s.cancelled + (if z.service.revision > s.service.revision then 1 else 0)
  }

  lemma SharedSupersedes(s: State, device: Option<string>)
    ensures Supersedes(s, Shared(s, device).0) && Supersedes(s, s)
  {
    hide Ephemeral;
  }

  lemma PolicySupersedes(s: State, e: Surroundings, device: string, path: Path)
    requires Ready(s) && DeviceFamily(path)
    ensures Supersedes(s, BatchedPolicy(s, e, device, path).0)
  {
    hide Ephemeral, Strip, Lookup, Put, FirstFor, DeviceRefusal, ProfileRejected, Clean, Agree, CandidateFor;
    PolicyKept(s, e, device, path);
    if BatchedPolicy(s, e, device, path).1.Denied? {
      DeniedIsSame(s, BatchedPolicy(s, e, device, path).0, BatchedPolicy(s, e, device, path).1);
    }
  }

  lemma DeniedIsSame(s: State, z: State, r: Result)
    requires Clean(s, z, r) && r.Denied?
    ensures z == s
  {
  }

  lemma NamedSupersedes(s: State, e: Surroundings, id: string)
    ensures Supersedes(s, NamedProfileSelected(s, e, id).0)
  {
    hide Ephemeral, Lookup, DeviceRefusal, Shared;
    SharedSupersedes(s, s.service.selection.device);
  }

  lemma OthersSupersede(s: State, mode: string, value: int)
    ensures Supersedes(s, VolumeModeSelected(s, mode).0) && Supersedes(s, ResyncDelaySet(s, value).0)
  {
    hide Strip, Lower, Lookup, Put, ProfileRejected, Shared;
    SharedSupersedes(s, None);
  }

  /** An intent supersedes a pending preparation exactly when it wrote. */
  lemma WritingSupersedes(s: State, e: Surroundings, intent: Intent)
    requires Ready(s)
    ensures Supersedes(s, Intended(s, e, intent).0)
  {
    hide Supersedes, Ready, Shared, BatchedPolicy, NamedProfileSelected, VolumeModeSelected, ResyncDelaySet, Strip, Lower, Dashed,
         PathPolicy, Lookup, DeviceRefusal;
    SharedSupersedes(s, s.service.selection.device);
    match intent
    case SelectSharedOutput =>
    case ClearDeviceSelection => SharedSupersedes(s, None);
    case SelectDevice(device) =>
      SharedSupersedes(s, Some(Strip(device)));
      var current := SelectedProfile(s);
      if current.Some? && DeviceFamily(current.value.path) {
        PolicySupersedes(s, e, Strip(device), current.value.path);
      }
    case SelectDeviceForPlayback(device) =>
      PolicySupersedes(s, e, Strip(device), Managed);
      PolicySupersedes(s, e, Strip(device), HardwareDirectCompatible);
    case SelectProfile(profile) => NamedSupersedes(s, e, profile);
    case SelectPathMode(mode) =>
      var policy := PathPolicy(Dashed(Lower(Strip(mode))));
      PathPolicyFamily(Dashed(Lower(Strip(mode))));
      if policy.Some? && s.service.selection.device.Some? {
        PolicySupersedes(s, e, s.service.selection.device.value, policy.value);
      }
    case SelectVolumeMode(mode) => OthersSupersede(s, mode, 0);
    case SetResyncDelay(value) => OthersSupersede(s, "", value);
  }
}
