/** The objects themselves: the state service, the collaborators, and the two coordinators,
    each method proved against its function on worlds. */
module EngineCoordinators {
  import opened Wrappers
  import opened TransportRouter
  import opened EngineWorld
  import opened EngineOperations
  import EngineOutcomes
  import EngineRuns

  /** Providers, router, settings, playback and the observers of the state.  The coordinators
      see them only through these calls; a returned fault is a raised exception. */
  class Collaborators {
    var world: World

    twostate predicate Frames()
      reads this
    {
      world.state == old(world.state) && world.shutdown == old(world.shutdown)
    }

    constructor (w: World)
      ensures world == w
    {
      world := w;
    }

    method Call(call: Call) returns (fault: Option<Fault>)
      modifies this
      ensures Frames()
      ensures world == Made(old(world), call)
      ensures fault == if Raises(old(world), call) then Some(FaultOf(old(world), call)) else None
    {
      fault := if Raises(world, call) then Some(FaultOf(world, call)) else None;
      world := Made(world, call);
    }

    /** The descriptor of a probe: raises, or tells what blocks the activation. */
    method Probe(e: EngineId) returns (fault: Option<Fault>, blocker: Option<Fault>)
      modifies this
      ensures Frames()
      ensures world == Made(old(world), EngineWorld.Probe(e))
      ensures fault == if Raises(old(world), EngineWorld.Probe(e)) then Some(FaultOf(old(world), EngineWorld.Probe(e))) else None
      ensures blocker == if Raises(old(world), Inactive(e)) then Some(FaultOf(old(world), Inactive(e))) else None
    {
      blocker := if Raises(world, Inactive(e)) then Some(FaultOf(world, Inactive(e))) else None;
      fault := Call(EngineWorld.Probe(e));
    }

    method SetAudioEngine(e: EngineId) returns (fault: Option<Fault>)
      modifies this
      ensures Frames()
      ensures world == SetPreference(old(world), e)
      ensures fault == if PreferenceRaises(old(world), e) then Some(FaultOf(old(world), Persist)) else None
    {
      fault := if PreferenceRaises(world, e) then Some(FaultOf(world, Persist)) else None;
      world := SetPreference(world, e);
    }

    method Unbind() returns (fault: Option<Fault>)
      modifies this
      ensures Frames()
      ensures world == EngineWorld.Unbind(old(world))
      ensures fault == if UnbindRaisesNow(old(world)) then Some(FaultOf(old(world), UnbindRaises)) else None
    {
      fault := if UnbindRaisesNow(world) then Some(FaultOf(world, UnbindRaises)) else None;
      world := EngineWorld.Unbind(world);
    }

    method Open(e: EngineId) returns (fault: Option<Fault>)
      modifies this
      ensures Frames()
      ensures world == OpenProvider(old(world), e)
      ensures fault == if Raises(old(world), EngineWorld.Open(e)) then Some(FaultOf(old(world), EngineWorld.Open(e))) else None
    {
      fault := if Raises(world, EngineWorld.Open(e)) then Some(FaultOf(world, EngineWorld.Open(e))) else None;
      world := OpenProvider(world, e);
    }

    method Close(e: EngineId) returns (fault: Option<Fault>)
      modifies this
      ensures Frames()
      ensures world == CloseProvider(old(world), e)
      ensures fault == if Raises(old(world), EngineWorld.Close(e)) then Some(FaultOf(old(world), EngineWorld.Close(e))) else None
    {
      fault := if Raises(world, EngineWorld.Close(e)) then Some(FaultOf(world, EngineWorld.Close(e))) else None;
      world := CloseProvider(world, e);
    }

    method Bind(e: EngineId) returns (fault: Option<Fault>)
      modifies this
      ensures Frames()
      ensures world == BindRouter(old(world), e)
      ensures fault == if Raises(old(world), Attach(e)) then Some(FaultOf(old(world), Attach(e))) else None
    {
      fault := if Raises(world, Attach(e)) then Some(FaultOf(world, Attach(e))) else None;
      world := BindRouter(world, e);
    }

    method EngineSwitchReadiness() returns (blocker: Option<Blocker>)
      modifies this
      ensures Frames()
      ensures (world, blocker) == Readiness(old(world))
    {
      blocker := Readiness(world).1;
      world := Readiness(world).0;
    }
  }

  /** The sole owner of the engine state. */
  class AudioEngineService {
    const host: Collaborators
    var state: EngineState

    /** The observers have seen the committed state. */
    predicate Valid()
      reads this, host
    {
      state == host.world.state
    }

    constructor (host: Collaborators)
      ensures Valid() && this.host == host
    {
      this.host := host;
      state := host.world.state;
    }

    /** The state was handed to the observers, and nothing else happened to the world. */
    twostate predicate Committed()
      reads this, host
    {
      && host.world == Publish(old(host.world), state)
      && host.world.physical == old(host.world.physical) && host.world.shutdown == old(host.world.shutdown)
    }

    method Replace(s: EngineState)
      modifies this, host
      ensures Valid() && Committed() && state == s
    {
      state := s;
      host.world := Publish(host.world, s);
    }

    /** The target is being activated and no engine is active. */
    method MarkInitializing(e: EngineId)
      requires Valid()
      modifies this, host
      ensures Valid() && Committed()
      ensures state.selected == old(state.selected) && state.active.None? && state.lifecycle.Initializing?
      ensures state.switchingTo == Some(e) && state.error == [] && state.fallbackFrom.None?
      ensures !AtRest(state) && host.world.everHonest == old(host.world.everHonest)
      ensures Faithful(host.world) <==> host.world.physical.bound.None?
    {
      Replace(EngineWorld.MarkInitializing(state, e));
    }

    /** READY is the truth exactly while the router is bound to `e`. */
    method MarkReady(e: EngineId)
      requires Valid()
      modifies this, host
      ensures Valid() && Committed()
      ensures state.selected == old(state.selected) && state.active == Some(e) && state.lifecycle.Ready?
      ensures state.switchingTo.None? && state.error == [] && state.fallbackFrom.None?
      ensures AtRest(state) && (Faithful(host.world) <==> host.world.physical.bound == Some(e))
      ensures host.world.everHonest == (old(host.world.everHonest) && host.world.physical.bound == Some(e))
    {
      Replace(EngineWorld.MarkReady(state, e));
    }

    /** An attempt failed, and no engine is active. */
    method MarkFailed(message: seq<Fault>)
      requires Valid()
      modifies this, host
      ensures Valid() && Committed()
      ensures state.selected == old(state.selected) && state.active.None? && state.lifecycle.Failed?
      ensures state.switchingTo.None? && state.error == message && state.fallbackFrom.None?
      ensures AtRest(state) && host.world.everHonest == old(host.world.everHonest)
      ensures Faithful(host.world) <==> host.world.physical.bound.None?
    {
      Replace(EngineWorld.MarkFailed(state, message));
    }

    /** The engine cannot be activated at all. */
    method MarkUnavailable(message: seq<Fault>)
      requires Valid()
      modifies this, host
      ensures Valid() && Committed()
      ensures state.selected == old(state.selected) && state.active.None? && state.lifecycle.Unavailable?
      ensures state.switchingTo.None? && state.error == message && state.fallbackFrom.None?
      ensures AtRest(state) && host.world.everHonest == old(host.world.everHonest)
      ensures Faithful(host.world) <==> host.world.physical.bound.None?
    {
      Replace(EngineWorld.MarkUnavailable(state, message));
    }

    /** Re-baselines the preference; the active engine stays, and only the fallback origin is lost. */
    method RestoreSelected(e: EngineId)
      requires Valid()
      modifies this, host
      ensures Valid() && Committed()
      ensures state.selected == e && state.active == old(state.active) && state.lifecycle == old(state.lifecycle)
      ensures state.switchingTo == old(state.switchingTo) && state.error == old(state.error) && state.fallbackFrom.None?
      ensures AtRest(state) <==> old(AtRest(state))
      ensures Faithful(host.world) <==> old(Faithful(host.world))
      ensures old(Truthful(host.world)) ==> Truthful(host.world)
    {
      Replace(EngineWorld.RestoreSelected(state, e));
    }

    /** The preference is saved; the old engine may still be active, and the diagnostics are lost. */
    method MarkSelected(e: EngineId)
      requires Valid()
      modifies this, host
      ensures Valid() && Committed()
      ensures state.selected == e && state.active == old(state.active) && state.lifecycle == old(state.lifecycle)
      ensures state.switchingTo == Some(e) && state.error == [] && state.fallbackFrom.None?
      ensures !AtRest(state)
      ensures Faithful(host.world) <==> old(Faithful(host.world))
      ensures old(Truthful(host.world)) ==> Truthful(host.world)
    {
      Replace(EngineWorld.MarkSelected(state, e));
    }

    /** The switch was given up before anything was torn down: the engine and its diagnostics stay. */
    method MarkSelectionAborted(e: EngineId)
      requires Valid()
      modifies this, host
      ensures Valid() && Committed()
      ensures state.selected == e && state.active == old(state.active) && state.lifecycle == old(state.lifecycle)
      ensures state.switchingTo.None? && state.error == old(state.error) && state.fallbackFrom == old(state.fallbackFrom)
      ensures AtRest(state) <==> !state.lifecycle.Initializing? && !state.lifecycle.Closing?
      ensures Faithful(host.world) <==> old(Faithful(host.world))
      ensures old(Truthful(host.world)) ==> Truthful(host.world)
    {
      Replace(EngineWorld.MarkSelectionAborted(state, e));
    }

    /** The source is being torn down and counts as active until the router lets go of it. */
    method MarkClosing(e: EngineId)
      requires Valid()
      modifies this, host
      ensures Valid() && Committed()
      ensures state.selected == old(state.selected) && state.active == Some(e) && state.lifecycle.Closing?
      ensures state.switchingTo == old(state.switchingTo) && state.error == [] && state.fallbackFrom.None?
      ensures !AtRest(state) && host.world.everHonest == old(host.world.everHonest)
      ensures Faithful(host.world) <==> host.world.physical.bound == Some(e)
    {
      Replace(EngineWorld.MarkClosing(state, e));
    }

    /** A transition failed with the router still bound: the state names the bound engine, never READY. */
    method MarkBoundFailed(e: EngineId, message: seq<Fault>)
      requires Valid()
      modifies this, host
      ensures Valid() && Committed()
      ensures state.selected == old(state.selected) && state.active == Some(e) && state.lifecycle.Failed?
      ensures state.switchingTo.None? && state.error == message && state.fallbackFrom.None?
      ensures AtRest(state) && host.world.everHonest == old(host.world.everHonest)
      ensures Faithful(host.world) <==> host.world.physical.bound == Some(e)
    {
      Replace(EngineWorld.MarkBoundFailed(state, e, message));
    }

    /** Ready through automatic fallback: the preference stays, and the reason is told. */
    method MarkFallbackReady(e: EngineId, from: EngineId, message: seq<Fault>)
      requires Valid()
      modifies this, host
      ensures Valid() && Committed()
      ensures state.selected == old(state.selected) && state.active == Some(e) && state.lifecycle.Ready?
      ensures state.switchingTo.None? && state.error == message && state.fallbackFrom == Some(from)
      ensures AtRest(state) && (Faithful(host.world) <==> host.world.physical.bound == Some(e))
      ensures host.world.everHonest == (old(host.world.everHonest) && host.world.physical.bound == Some(e))
    {
      Replace(EngineWorld.MarkFallbackReady(state, e, from, message));
    }

    /** Convergence ended without an active engine. */
    method MarkConvergenceFailed(message: seq<Fault>)
      requires Valid()
      modifies this, host
      ensures Valid() && Committed()
      ensures state.selected == old(state.selected) && state.active.None? && state.lifecycle.Failed?
      ensures state.switchingTo.None? && state.error == message && state.fallbackFrom.None?
      ensures AtRest(state) && host.world.everHonest == old(host.world.everHonest)
      ensures Faithful(host.world) <==> host.world.physical.bound.None?
    {
      Replace(EngineWorld.MarkConvergenceFailed(state, message));
    }
  }

  // ---------------------------------------------------------------------------
  // Activation: the statements both coordinators run
  // ---------------------------------------------------------------------------

  method ReleaseFailedTarget(host: Collaborators, e: EngineId, f: Fault) returns (a: Activation)
    modifies host
    ensures host.Frames()
    ensures var t := Cleanup(old(host.world), e, f); host.world == t.0 && a == t.1
  {
    hide Made, EngineWorld.Unbind, CloseProvider;
    var suppressed := host.Unbind();
    if host.world.physical.bound.Some? {
      return StillBound(f, host.world.physical.bound.value);
    }
    var second := host.Close(e);
    a := if second.Some? then ReleaseFailed(f, second.value) else Released(f);
  }

  method OpenAndAttach(service: AudioEngineService, host: Collaborators, e: EngineId) returns (a: Activation)
    requires service.Valid() && service.host == host
    modifies service, host
    ensures service.Valid() && host.world.shutdown == old(host.world.shutdown)
    ensures service.state == MarkInitializing(old(service.state), e)
    ensures var t := Activate(old(host.world), e); host.world == t.0 && a == t.1
  {
    hide Made, OpenProvider, BindRouter, Publish, Cleanup;
    service.MarkInitializing(e);
    var fault := host.Open(e);
    if fault.Some? {
      return OpenFailed(fault.value);
    }
    fault := host.Bind(e);
    if fault.None? {
      fault := host.Call(Volume);
    }
    if fault.Some? {
      a := ReleaseFailedTarget(host, e, fault.value);
    } else {
      a := Up;
    }
  }

  method ActivateEngine(service: AudioEngineService, host: Collaborators, e: EngineId, from: Option<EngineId>, message: seq<Fault>)
    returns (a: Activation)
    requires service.Valid() && service.host == host
    modifies service, host
    ensures service.Valid() && host.world.shutdown == old(host.world.shutdown)
    ensures var t := ActivateAndBind(old(host.world), e, from, message); host.world == t.0 && a == t.1
  {
    hide Publish, Activate;
    a := OpenAndAttach(service, host, e);
    match a {
      case Up =>
        if from.Some? {
          service.MarkFallbackReady(e, from.value, message);
        } else {
          service.MarkReady(e);
        }
      case OpenFailed(f) => service.MarkFailed([f]);
      case Released(f) => service.MarkFailed([f]);
      case ReleaseFailed(f, g) => service.MarkFailed([f, g]);
      case StillBound(f, owner) => service.MarkBoundFailed(owner, [f]);
    }
  }

  // What the theorems about worlds say of the methods below.

  lemma StartupTheorem(w: World)
    ensures var z := EngineOperations.ConvergeStartup(w);
            EngineRuns.Fresh(w) ==> Settled(z) && Truthful(z) && EngineOutcomes.FellBack(w, z)
  {
    hide *;
    if EngineRuns.Fresh(w) {
      EngineRuns.StartupKeeps(w);
      EngineOutcomes.StartupFallsBack(w);
    }
  }

  lemma RuntimeTheorem(w: World, e: EngineId, generation: nat)
    ensures var z := EngineOperations.HandleRuntimeFailure(w, e, generation);
            Settled(w) ==> Settled(z) && (Truthful(w) ==> (Truthful(z) <==> !Strands(w, e, generation)))
  {
    hide *;
    if Settled(w) {
      EngineRuns.RuntimeFailureKeeps(w, e, generation);
    }
  }

  lemma SwitchTheorem(w: World, target: EngineId, wired: bool)
    ensures var (z, r) := EngineOperations.SwitchTo(w, target, wired);
            Settled(w) ==>
              && EngineRuns.SwitchKept(w, z, target, r, wired) && EngineRuns.SwitchKept(w, w, target, Refused(SwitchInProgress), wired)
              && EngineOutcomes.RefusedRightly(w, target, r)
  {
    hide *;
    if Settled(w) {
      EngineOutcomes.SwitchRefusedRightly(w, target, wired);
      EngineRuns.SwitchKeeps(w, target, wired);
      RefusalTheorem(w, target, wired);
    }
  }

  lemma RefusalTheorem(w: World, target: EngineId, wired: bool)
    requires Settled(w)
    ensures EngineRuns.SwitchKept(w, w, target, Refused(SwitchInProgress), wired)
  {
  }

  /** Involuntary convergence: startup, recovery after a failed switch, runtime loss. */
  class AudioEngineConvergenceCoordinator {
    const service: AudioEngineService
    const host: Collaborators
    var recoveryInProgress: bool
    var isShutdown: bool

    predicate Valid()
      reads this, service, host
    {
      service.host == host && service.Valid() && isShutdown == host.world.shutdown
    }

    constructor (service: AudioEngineService)
      requires service.Valid() && !service.host.world.shutdown
      ensures Valid() && this.service == service && !recoveryInProgress
    {
      this.service, this.host := service, service.host;
      recoveryInProgress, isShutdown := false, false;
    }

    method TryQtFallback(from: EngineId, reason: seq<Fault>) returns (k: Recovery)
      requires Valid()
      modifies service, host
      ensures Valid()
      ensures var t := EngineOperations.TryQtFallback(old(host.world), from, reason); host.world == t.0 && k == t.1
    {
      hide Made, Publish, ActivateAndBind;
      ghost var before := host.world;
      var fault, blocker := host.Probe(QtMultimedia);
      if fault.Some? {
        return ProbeRaised(fault.value);
      }
      if blocker.Some? {
        service.MarkConvergenceFailed(reason + [blocker.value]);
        return NotRecovered;
      }
      host.world := NoteFallback(host.world);
      var a := ActivateEngine(service, host, QtMultimedia, Some(from), reason);
      if a.Up? {
        return Recovered;
      }
      if !a.StillBound? {
        service.MarkConvergenceFailed(reason);
      }
      k := NotRecovered;
    }

    /** An exception leaves the startup only from a probe. */
    method ConvergeStartup()
      requires Valid()
      modifies service, host
      ensures Valid()
      ensures host.world == EngineOperations.ConvergeStartup(old(host.world))
      ensures old(EngineRuns.Fresh(host.world)) ==> Settled(host.world) && Truthful(host.world)
      ensures old(EngineRuns.Fresh(host.world)) ==> EngineOutcomes.FellBack(old(host.world), host.world)
    {
      hide Made, Publish, ActivateAndBind, EngineOperations.TryQtFallback, EngineRuns.Fresh, Settled, Truthful, Faithful, AtRest,
           EngineOutcomes.FellBack;
      StartupTheorem(host.world);
      if isShutdown {
        return;
      }
      host.world := BeginOperation(host.world);
      var e := service.state.selected;
      var fault, blocker := host.Probe(e);
      if fault.Some? {
        return;
      }
      if blocker.Some? {
        service.MarkUnavailable([blocker.value]);
        if e != QtMultimedia {
          var k := TryQtFallback(e, [blocker.value]);
        }
        return;
      }
      var a := ActivateEngine(service, host, e, None, []);
      if e != QtMultimedia && ProvenReleased(a) {
        var k := TryQtFallback(e, service.state.error);
      }
    }

    method RecoverSafeUnboundFailure(target: EngineId, reason: seq<Fault>) returns (k: Recovery)
      requires Valid() && !recoveryInProgress
      modifies this, service, host
      ensures Valid() && !recoveryInProgress
      ensures var t := Recover(old(host.world), target, reason); host.world == t.0 && k == t.1
    {
      hide EngineOperations.TryQtFallback;
      k := NotRecovered;
      if isShutdown {
        return;
      }
      recoveryInProgress := true;
      if target != QtMultimedia {
        k := TryQtFallback(target, reason);
      }
      recoveryInProgress := false;
    }

    method ConvergeRuntimeLoss(e: EngineId)
      requires Valid()
      modifies service, host
      ensures Valid()
      ensures host.world == EngineOperations.ConvergeRuntimeLoss(old(host.world), e)
    {
      hide Made, EngineWorld.Unbind, CloseProvider, Publish, EngineOperations.TryQtFallback;
      var blocked := Raises(host.world, FallbackBlocked);
      host.world := PlaybackConverged(host.world);
      var fault := host.Unbind();
      if fault.Some? && host.world.physical.bound.Some? {
        service.MarkBoundFailed(e, [fault.value]);
        return;
      }
      var lost := FaultOf(host.world, RuntimeLost(e));
      fault := host.Close(e);
      if fault.Some? {
        service.MarkFailed([fault.value]);
      } else if e == QtMultimedia || blocked {
        service.MarkConvergenceFailed([lost]);
      } else {
        var k := TryQtFallback(e, [lost]);
      }
    }

    /** A loss reported while another one is being handled is dropped. */
    method HandleRuntimeFailure(e: EngineId, generation: nat)
      requires Valid()
      modifies this, service, host
      ensures Valid() && recoveryInProgress == old(recoveryInProgress)
      ensures host.world == if old(recoveryInProgress) then old(host.world)
                            else EngineOperations.HandleRuntimeFailure(old(host.world), e, generation)
      ensures old(Settled(host.world)) ==> Settled(host.world)
      ensures old(Settled(host.world) && Truthful(host.world)) ==>
                (Truthful(host.world) <==> old(recoveryInProgress) || !Strands(old(host.world), e, generation))
    {
      hide Settled, Truthful, Strands, EngineOperations.ConvergeRuntimeLoss;
      RuntimeTheorem(host.world, e, generation);
      if isShutdown || recoveryInProgress || service.state.active != Some(e) {
        return;
      }
      if generation != Generation(host.world, e) {
        return;
      }
      recoveryInProgress := true;
      host.world := BeginOperation(host.world);
      ConvergeRuntimeLoss(e);
      recoveryInProgress := false;
    }

    method Shutdown()
      requires Valid()
      modifies this, host
      ensures Valid() && host.world == Perform(old(host.world), ShutDown, true)
    {
      isShutdown := true;
      host.world := host.world.(shutdown := true);
    }
  }

  /** The explicit switch transaction. */
  class AudioEngineSelectionCoordinator {
    const service: AudioEngineService
    const host: Collaborators
    const convergence: AudioEngineConvergenceCoordinator
    var switchInProgress: bool
    var recoveryWired: bool
    var lastFailureStage: Option<Stage>

    ghost predicate Valid()
      reads this, service, host, convergence
    {
      convergence.service == service && convergence.host == host && convergence.Valid()
    }

    constructor (convergence: AudioEngineConvergenceCoordinator)
      requires convergence.Valid()
      ensures Valid() && this.convergence == convergence && !switchInProgress && !recoveryWired && lastFailureStage.None?
    {
      this.convergence, service, host := convergence, convergence.service, convergence.host;
      switchInProgress, recoveryWired, lastFailureStage := false, false, None;
    }

    /** The stage that a failure with a stage leaves recorded. */
    twostate predicate Recorded(r: SwitchResult)
      reads this
    {
      lastFailureStage == if r.Raised? && r.stage.Some? then r.stage else old(lastFailureStage)
    }

    method SetRecoveryCallback(wired: bool)
      modifies this`recoveryWired
      ensures recoveryWired == wired
    {
      recoveryWired := wired;
    }

    method SelectionPlan(target: EngineId) returns (plan: Plan)
      requires Valid()
      modifies host
      ensures Valid() && host.world.state == old(host.world.state) && host.world.shutdown == old(host.world.shutdown)
      ensures if switchInProgress then host.world == old(host.world) && plan == Plan(RuntimeSwitch, Some(SwitchInProgress))
              else (host.world, plan) == EngineOperations.SelectionPlan(old(host.world), target)
      ensures !switchInProgress && service.state.switchingTo.None? && !EngineOutcomes.Running(old(host.world), target) ==>
                (plan.action == Unreachable <==> EngineOutcomes.Unready(old(host.world), target))
    {
      EngineOutcomes.PlanIs(host.world, target);
      var state := service.state;
      if state.switchingTo.Some? || switchInProgress {
        return Plan(RuntimeSwitch, Some(SwitchInProgress));
      }
      if ActiveReady(state, target) {
        return Plan(if state.selected == target then Noop else PreferenceOnly, None);
      }
      var fault, inactive := host.Probe(target);
      if fault.Some? || inactive.Some? {
        return Plan(Unreachable, Some(RuntimeUnavailable));
      }
      var blocker := host.EngineSwitchReadiness();
      plan := Plan(if state.selected == target && state.active != Some(target) then RetryPreferred else RuntimeSwitch, blocker);
    }

    method ActivateTarget(target: EngineId) returns (r: SwitchResult)
      requires Valid() && !convergence.recoveryInProgress
      modifies this`lastFailureStage, service, host, convergence
      ensures Recorded(r)
      ensures Valid() && !convergence.recoveryInProgress
      ensures var t := SwitchTarget(old(host.world), target, recoveryWired); host.world == t.0 && r == t.1
    {
      hide Made, ActivateAndBind, Recover;
      var a := ActivateEngine(service, host, target, None, []);
      if a.Up? {
        var pending := Raises(host.world, RehydrateAsync);
        var fault := host.Call(Rehydrate);
        if fault.None? && pending {
          host.world := host.world.(lease := Rehydrating);
        }
        return Done;
      }
      lastFailureStage := StageOf(a);
      if ProvenReleased(a) && recoveryWired {
        var k := convergence.RecoverSafeUnboundFailure(target, [a.error]);
        if k.ProbeRaised? {
          return Raised(k.error, StageOf(a));
        }
      }
      r := Raised(a.error, StageOf(a));
    }

    /** The unbind of the source raised: the router may keep it, or it runs on out of sight. */
    method KeepStuckSource(active: EngineId, f: Fault)
      requires Valid()
      modifies service, host
      ensures Valid() && host.world == SourceStuck(old(host.world), active, f)
    {
      hide Publish, Faithful, Truthful, AtRest;
      var bound := host.world.physical.bound;
      if bound.Some? {
        service.MarkBoundFailed(bound.value, [f]);
      } else {
        host.world := Abandon(host.world, active);
        service.MarkFailed([f]);
      }
    }

    method ReleaseSource(active: EngineId, target: EngineId) returns (r: SwitchResult)
      requires Valid() && !convergence.recoveryInProgress
      modifies this`lastFailureStage, service, host, convergence
      ensures Recorded(r)
      ensures Valid() && !convergence.recoveryInProgress
      ensures var t := SwitchSource(old(host.world), active, target, recoveryWired); host.world == t.0 && r == t.1
    {
      hide EngineWorld.Unbind, CloseProvider, Publish, SwitchTarget, SourceStuck, Faithful, Truthful, AtRest;
      service.MarkClosing(active);
      var fault := host.Unbind();
      if fault.Some? {
        lastFailureStage := Some(SourceUnbind);
        KeepStuckSource(active, fault.value);
        return Raised(fault.value, Some(SourceUnbind));
      }
      fault := host.Close(active);
      if fault.Some? {
        lastFailureStage := Some(SourceClose);
        service.MarkFailed([fault.value]);
        return Raised(fault.value, Some(SourceClose));
      }
      r := ActivateTarget(target);
    }

    method UnderLease(target: EngineId) returns (r: SwitchResult)
      requires Valid() && !convergence.recoveryInProgress
      modifies this`lastFailureStage, service, host, convergence
      ensures Recorded(r)
      ensures Valid() && !convergence.recoveryInProgress
      ensures var t := SwitchLeased(old(host.world), target, recoveryWired); host.world == t.0 && r == t.1
    {
      hide Made, SetPreference, Publish, SwitchSource, SwitchTarget;
      var state := service.state;
      var fault := host.SetAudioEngine(target);
      if fault.Some? {
        return Raised(fault.value, None);
      }
      service.MarkSelected(target);
      fault := host.Call(Stop);
      if fault.Some? {
        var secondary := host.SetAudioEngine(state.selected);
        service.MarkSelectionAborted(host.world.persisted);
        return Raised(fault.value, None);
      }
      if state.active.Some? {
        r := ReleaseSource(state.active.value, target);
      } else {
        r := ActivateTarget(target);
      }
    }

    method SwitchToTransaction(target: EngineId, plan: Plan) returns (r: SwitchResult)
      requires Valid() && !convergence.recoveryInProgress
      modifies this`lastFailureStage, service, host, convergence
      ensures Recorded(r)
      ensures Valid() && !convergence.recoveryInProgress
      ensures var t := Execute(old(host.world), plan, target, recoveryWired); host.world == t.0 && r == t.1
    {
      hide SetPreference, Publish, SwitchLeased;
      if plan.action.Noop? {
        return Done;
      }
      if plan.action.PreferenceOnly? {
        var fault := host.SetAudioEngine(target);
        if fault.Some? {
          return Raised(fault.value, None);
        }
        service.RestoreSelected(target);
        return Done;
      }
      if plan.action.Unreachable? {
        return Refused(RuntimeUnavailable);
      }
      if plan.blocker.Some? {
        return Refused(plan.blocker.value);
      }
      var blocker := host.EngineSwitchReadiness();
      if blocker.Some? {
        return Refused(blocker.value);
      }
      host.world := host.world.(lease := Held);
      r := UnderLease(target);
      host.world := ReleaseLease(host.world);
    }

    /** A switch asked for while one is in progress is refused and changes nothing. */
    method SwitchTo(target: EngineId) returns (r: SwitchResult)
      requires Valid() && !convergence.recoveryInProgress
      modifies this, service, host, convergence
      ensures Valid() && switchInProgress == old(switchInProgress) && recoveryWired == old(recoveryWired)
      ensures (if switchInProgress then host.world == old(host.world) && r == Refused(SwitchInProgress)
               else (host.world, r) == EngineOperations.SwitchTo(old(host.world), target, recoveryWired))
      ensures lastFailureStage == if switchInProgress then old(lastFailureStage) else if r.Raised? then r.stage else None
      ensures old(Settled(host.world)) ==> EngineRuns.SwitchKept(old(host.world), host.world, target, r, recoveryWired)
      ensures old(Settled(host.world)) && !switchInProgress ==> EngineOutcomes.RefusedRightly(old(host.world), target, r)
    {
      hide Execute, EngineOperations.SelectionPlan, EngineRuns.SwitchKept, EngineOutcomes.RefusedRightly, Settled;
      SwitchTheorem(host.world, target, recoveryWired);
      if switchInProgress {
        return Refused(SwitchInProgress);
      }
      host.world := BeginOperation(host.world);
      var plan := SelectionPlan(target);
      switchInProgress := true;
      lastFailureStage := None;
      r := SwitchToTransaction(target, plan);
      switchInProgress := false;
    }
  }
}
