/** What each operation of the two engine coordinators does to the world. */
module EngineOperations {
  import opened Wrappers
  import opened TransportRouter
  import opened EngineWorld

  datatype Activation =
    | Up
    | OpenFailed(error: Fault)
    | Released(error: Fault)
    | ReleaseFailed(error: Fault, second: Fault)
    | StillBound(error: Fault, owner: EngineId)

  datatype Recovery = Recovered | NotRecovered | ProbeRaised(error: Fault)

  datatype Blocker = SwitchInProgress | MediaPending | RuntimeUnavailable

  datatype Action = Noop | PreferenceOnly | Unreachable | RetryPreferred | RuntimeSwitch

  datatype Plan = Plan(action: Action, blocker: Option<Blocker>)

  /** Where a switch failed after its destructive boundary. */
  datatype Stage = SourceUnbind | SourceClose | TargetOpen | TargetDetachedReleased | TargetDetachedCloseFailed | TargetStillBound

  datatype SwitchResult = Done | Refused(blocker: Blocker) | Raised(error: Fault, stage: Option<Stage>)

  // ---------------------------------------------------------------------------
  // Activation of one engine
  // ---------------------------------------------------------------------------

  /** The detached target is closed; `f` is what made its activation fail. */
  function ReleaseTarget(u: World, e: EngineId, f: Fault): (World, Activation) {
    (CloseProvider(u, e), if Raises(u, Close(e)) then ReleaseFailed(f, FaultOf(u, Close(e))) else Released(f))
  }

  /** The release of a target whose bind or volume restore raised `f`. */
  function Cleanup(w: World, e: EngineId, f: Fault): (World, Activation) {
    var u := Unbind(w);
    if u.physical.bound.Some? then (u, StillBound(f, u.physical.bound.value)) else ReleaseTarget(u, e, f)
  }

  /** The open target is bound and given the canonical volume. */
  function AttachTarget(o: World, e: EngineId): (World, Activation) {
    var b := BindRouter(o, e);
    if Raises(o, Attach(e)) then Cleanup(b, e, FaultOf(o, Attach(e)))
    else
      var v := Made(b, Volume);
      if Raises(b, Volume) then Cleanup(v, e, FaultOf(b, Volume)) else (v, Up)
  }

  function Activate(w: World, e: EngineId): (World, Activation) {
    var i := Publish(w, MarkInitializing(w.state, e));
    var o := OpenProvider(i, e);
    if Raises(i, Open(e)) then (o, OpenFailed(FaultOf(i, Open(e)))) else AttachTarget(o, e)
  }

  /** The state an activation of `e` ends in; `from` is the engine it falls back from. */
  function Verdict(s: EngineState, e: EngineId, a: Activation, from: Option<EngineId>, message: seq<Fault>): EngineState {
    match a
    case Up => if from.Some? then MarkFallbackReady(s, e, from.value, message) else MarkReady(s, e)
    case OpenFailed(f) => MarkFailed(s, [f])
    case Released(f) => MarkFailed(s, [f])
    case ReleaseFailed(f, g) => MarkFailed(s, [f, g])
    case StillBound(f, owner) => MarkBoundFailed(s, owner, [f])
  }

  function ActivateAndBind(w: World, e: EngineId, from: Option<EngineId>, message: seq<Fault>): (World, Activation) {
    var (v, a) := Activate(w, e);
    (Publish(v, Verdict(v.state, e, a, from, message)), a)
  }

  function StageOf(a: Activation): Option<Stage> {
    match a
    case Up => None
    case OpenFailed(_) => Some(TargetOpen)
    case Released(_) => Some(TargetDetachedReleased)
    case ReleaseFailed(_, _) => Some(TargetDetachedCloseFailed)
    case StillBound(_, _) => Some(TargetStillBound)
  }

  predicate ProvenReleased(a: Activation) {
    a.OpenFailed? || a.Released?
  }

  // ---------------------------------------------------------------------------
  // Automatic fallback
  // ---------------------------------------------------------------------------

  function NoteFallback(w: World): World {
    w.(everReleased := w.everReleased && AllReleased(w) && !w.closeRaised)
  }

  function TryQtFallback(w: World, from: EngineId, reason: seq<Fault>): (World, Recovery) {
    var p := Made(w, Probe(QtMultimedia));
    if Raises(w, Probe(QtMultimedia)) then (p, ProbeRaised(FaultOf(w, Probe(QtMultimedia))))
    else if Raises(w, Inactive(QtMultimedia)) then
      (Publish(p, MarkConvergenceFailed(p.state, reason + [FaultOf(w, Inactive(QtMultimedia))])), NotRecovered)
    else
      var (a, r) := ActivateAndBind(NoteFallback(p), QtMultimedia, Some(from), reason);
      if r.Up? then (a, Recovered)
      else if r.StillBound? then (a, NotRecovered)
      else (Publish(a, MarkConvergenceFailed(a.state, reason)), NotRecovered)
  }

  function Recover(w: World, target: EngineId, reason: seq<Fault>): (World, Recovery) {
    if w.shutdown || target == QtMultimedia then (w, NotRecovered) else TryQtFallback(w, target, reason)
  }

  // ---------------------------------------------------------------------------
  // Explicit switch
  // ---------------------------------------------------------------------------

  /** `engine_switch_readiness`: a rehydration can be superseded, a running switch cannot. */
  function Readiness(w: World): (World, Option<Blocker>) {
    if w.lease.Held? then (w, Some(SwitchInProgress))
    else if w.lease.Rehydrating? then (w, None)
    else (Asked(w), if Raises(w, Pending) then Some(MediaPending) else None)
  }

  predicate ActiveReady(s: EngineState, target: EngineId) {
    s.active == Some(target) && s.lifecycle.Ready?
  }

  /** The target is not the running engine: probe it, then ask whether playback can be moved. */
  function ProbedPlan(w: World, target: EngineId): (World, Plan) {
    var p := Made(w, Probe(target));
    if Raises(w, Probe(target)) || Raises(w, Inactive(target)) then (p, Plan(Unreachable, Some(RuntimeUnavailable)))
    else
      var (q, blocker) := Readiness(p);
      (q, Plan(if w.state.selected == target && w.state.active != Some(target) then RetryPreferred else RuntimeSwitch, blocker))
  }

  function SelectionPlan(w: World, target: EngineId): (World, Plan) {
    if w.state.switchingTo.Some? then (w, Plan(RuntimeSwitch, Some(SwitchInProgress)))
    else if ActiveReady(w.state, target) then
      (w, Plan(if w.state.selected == target then Noop else PreferenceOnly, None))
    else ProbedPlan(w, target)
  }

  /** The target engine is opened once the source is gone. */
  function SwitchTarget(w: World, target: EngineId, wired: bool): (World, SwitchResult) {
    var (a, r) := ActivateAndBind(w, target, None, []);
    if r.Up? then
      var p := Made(a, Rehydrate);
      (if !Raises(a, Rehydrate) && Raises(a, RehydrateAsync) then p.(lease := Rehydrating) else p, Done)
    else if ProvenReleased(r) && wired then
      var (z, k) := Recover(a, target, [r.error]);
      (z, Raised(if k.ProbeRaised? then k.error else r.error, StageOf(r)))
    else (a, Raised(r.error, StageOf(r)))
  }

  /** The source's unbind raised `f`: nothing is closed, nothing is opened. */
  function SourceStuck(u: World, active: EngineId, f: Fault): World {
    if u.physical.bound.Some? then Publish(u, MarkBoundFailed(u.state, u.physical.bound.value, [f]))
    else
      var m := Abandon(u, active);
      Publish(m, MarkFailed(m.state, [f]))
  }

  function CloseSource(u: World, active: EngineId, target: EngineId, wired: bool): (World, SwitchResult) {
    var x := CloseProvider(u, active);
    if Raises(u, Close(active)) then
      var f := FaultOf(u, Close(active));
      (Publish(x, MarkFailed(x.state, [f])), Raised(f, Some(SourceClose)))
    else SwitchTarget(x, target, wired)
  }

  function SwitchSource(w: World, active: EngineId, target: EngineId, wired: bool): (World, SwitchResult) {
    var c := Publish(w, MarkClosing(w.state, active));
    var u := Unbind(c);
    if UnbindRaisesNow(c) then (SourceStuck(u, active, FaultOf(c, UnbindRaises)), Raised(FaultOf(c, UnbindRaises), Some(SourceUnbind)))
    else CloseSource(u, active, target, wired)
  }

  /** The best-effort rollback of the preference after a controlled stop that raised. */
  function AbortSelection(w: World, selected: EngineId): World {
    var r := SetPreference(w, selected);
    Publish(r, MarkSelectionAborted(r.state, r.persisted))
  }

  /** The preference is saved; `was` is the state before the transaction. */
  function SwitchPersisted(p: World, was: EngineState, target: EngineId, wired: bool): (World, SwitchResult) {
    var m := Publish(p, MarkSelected(p.state, target));
    var s := Made(m, Stop);
    if Raises(m, Stop) then (AbortSelection(s, was.selected), Raised(FaultOf(m, Stop), None))
    else if was.active.Some? then SwitchSource(s, was.active.value, target, wired)
    else SwitchTarget(s, target, wired)
  }

  /** The part of the transaction that holds the lease. */
  function SwitchLeased(h: World, target: EngineId, wired: bool): (World, SwitchResult) {
    var p := SetPreference(h, target);
    if PreferenceRaises(h, target) then (p, Raised(FaultOf(h, Persist), None))
    else SwitchPersisted(p, h.state, target, wired)
  }

  function ReleaseLease(w: World): World {
    w.(lease := if w.lease.Rehydrating? then Rehydrating else Free)
  }

  function SwitchTransaction(w: World, target: EngineId, wired: bool): (World, SwitchResult) {
    var (b, blocker) := Readiness(w);
    if blocker.Some? then (b, Refused(blocker.value))
    else
      var (z, r) := SwitchLeased(b.(lease := Held), target, wired);
      (ReleaseLease(z), r)
  }

  function BeginOperation(w: World): World {
    w.(first := None, closeRaised := false)
  }

  /** What a plan makes of the selection. */
  function Execute(q: World, plan: Plan, target: EngineId, wired: bool): (World, SwitchResult) {
    match plan.action
    case Noop => (q, Done)
    case PreferenceOnly =>
      var p := SetPreference(q, target);
      if PreferenceRaises(q, target) then (p, Raised(FaultOf(q, Persist), None))
      else (Publish(p, RestoreSelected(p.state, target)), Done)
    case Unreachable => (q, Refused(RuntimeUnavailable))
    case _ => if plan.blocker.Some? then (q, Refused(plan.blocker.value)) else SwitchTransaction(q, target, wired)
  }

  function SwitchTo(w: World, target: EngineId, wired: bool): (World, SwitchResult) {
    var (q, plan) := SelectionPlan(BeginOperation(w), target);
    Execute(q, plan, target, wired)
  }

  /** The moment at which the switch has taken its lease, if it gets there. */
  function LeaseMoment(w: World, target: EngineId): Option<World> {
    var (q, plan) := SelectionPlan(BeginOperation(w), target);
    if !(plan.action.RetryPreferred? || plan.action.RuntimeSwitch?) || plan.blocker.Some? then None
    else
      var (b, blocker) := Readiness(q);
      if blocker.Some? then None else Some(b.(lease := Held))
  }

  /** The moment at which the preference is saved and playback is about to be stopped. */
  function StopMoment(w: World, target: EngineId): Option<World> {
    var h := LeaseMoment(w, target);
    if h.None? || PreferenceRaises(h.value, target) then None
    else
      var p := SetPreference(h.value, target);
      Some(Publish(p, MarkSelected(p.state, target)))
  }

  /** The moment at which the switch opens its target. */
  function TargetMoment(w: World, target: EngineId): Option<World> {
    var h := LeaseMoment(w, target);
    if h.None? then None else LeasedMoment(h.value, target)
  }

  function LeasedMoment(h: World, target: EngineId): Option<World> {
    var p := SetPreference(h, target);
    var m := Publish(p, MarkSelected(p.state, target));
    if PreferenceRaises(h, target) || Raises(m, Stop) then None
    else if h.state.active.None? then Some(Made(m, Stop))
    else SourceGone(Made(m, Stop), h.state.active.value)
  }

  function SourceGone(s: World, active: EngineId): Option<World> {
    var c := Publish(s, MarkClosing(s.state, active));
    var u := Unbind(c);
    if UnbindRaisesNow(c) || Raises(u, Close(active)) then None else Some(CloseProvider(u, active))
  }

  /** The failed target `e`, attached or not, is detached and closed. */
  predicate LetsGo(w: World, e: EngineId) {
    var u := Unbind(w);
    u.physical.bound.None? && !Raises(u, Close(e))
  }

  /** The activation of `e` fails, and its release is proven. */
  predicate FailsReleased(t: World, e: EngineId) {
    var i := Publish(t, MarkInitializing(t.state, e));
    var o := OpenProvider(i, e);
    var b := BindRouter(o, e);
    || Raises(i, Open(e))
    || (if Raises(o, Attach(e)) then LetsGo(b, e) else Raises(b, Volume) && LetsGo(Made(b, Volume), e))
  }

  /** The switch reaches its target, which fails and is released, and the Qt probe of the recovery
      raises. */
  predicate ProbeReplaces(w: World, target: EngineId, wired: bool) {
    var t := TargetMoment(w, target);
    && wired && !w.shutdown && target != QtMultimedia
    && t.Some? && FailsReleased(t.value, target)
    && Raises(ActivateAndBind(t.value, target, None, []).0, Probe(QtMultimedia))
  }

  // ---------------------------------------------------------------------------
  // Involuntary convergence
  // ---------------------------------------------------------------------------

  /** Startup, once, before any engine is open. */
  function ConvergeStartup(v: World): World {
    var w := BeginOperation(v);
    var e := w.state.selected;
    if w.shutdown then v
    else
      var p := Made(w, Probe(e));
      if Raises(w, Probe(e)) then p
      else if Raises(w, Inactive(e)) then
        var f := FaultOf(w, Inactive(e));
        var m := Publish(p, MarkUnavailable(p.state, [f]));
        if e == QtMultimedia then m else TryQtFallback(m, e, [f]).0
      else
        var (a, r) := ActivateAndBind(p, e, None, []);
        if e != QtMultimedia && ProvenReleased(r) then TryQtFallback(a, e, a.state.error).0 else a
  }

  predicate LossHandled(w: World, e: EngineId, generation: nat) {
    !w.shutdown && w.state.active == Some(e) && generation == Generation(w, e)
  }

  /** Playback converges to stopped, which ends a rehydration. */
  function PlaybackConverged(w: World): World {
    Asked(w).(lease := if w.lease.Rehydrating? then Free else w.lease)
  }

  function CloseLost(u: World, e: EngineId, blocked: bool): World {
    var x := CloseProvider(u, e);
    if Raises(u, Close(e)) then Publish(x, MarkFailed(x.state, [FaultOf(u, Close(e))]))
    else if e == QtMultimedia || blocked then
      Publish(x, MarkConvergenceFailed(x.state, [FaultOf(u, RuntimeLost(e))]))
    else TryQtFallback(x, e, [FaultOf(u, RuntimeLost(e))]).0
  }

  function ConvergeRuntimeLoss(w: World, e: EngineId): World {
    var a := PlaybackConverged(w);
    var u := Unbind(a);
    if UnbindRaisesNow(a) && u.physical.bound.Some? then
      Publish(u, MarkBoundFailed(u.state, e, [FaultOf(a, UnbindRaises)]))
    else CloseLost(u, e, Raises(w, FallbackBlocked))
  }

  function HandleRuntimeFailure(w: World, e: EngineId, generation: nat): World {
    if LossHandled(w, e, generation) then ConvergeRuntimeLoss(BeginOperation(w), e) else w
  }

  /** The loss of a non-Qt engine whose automatic fallback finds the Qt probe raising. */
  predicate Strands(v: World, e: EngineId, generation: nat) {
    var w := BeginOperation(v);
    var a := PlaybackConverged(w);
    var u := Unbind(a);
    && LossHandled(v, e, generation)
    && !(UnbindRaisesNow(a) && u.physical.bound.Some?)
    && !Raises(u, Close(e))
    && e != QtMultimedia
    && !Raises(w, FallbackBlocked)
    && Raises(CloseProvider(u, e), Probe(QtMultimedia))
  }

  /** The loss of an engine that the router does not let go of. */
  predicate Clings(v: World, e: EngineId, generation: nat) {
    var a := PlaybackConverged(BeginOperation(v));
    LossHandled(v, e, generation) && UnbindRaisesNow(a) && Unbind(a).physical.bound.Some?
  }

  // ---------------------------------------------------------------------------
  // Runs
  // ---------------------------------------------------------------------------

  datatype Operation = Switch(target: EngineId) | RuntimeFailed(engine: EngineId, generation: nat) | RehydrationEnds | ShutDown

  function Perform(w: World, op: Operation, wired: bool): World {
    match op
    case Switch(target) => SwitchTo(w, target, wired).0
    case RuntimeFailed(e, generation) => HandleRuntimeFailure(w, e, generation)
    case RehydrationEnds => w.(lease := Free)
    case ShutDown => w.(shutdown := true)
  }

  function Operate(w: World, ops: seq<Operation>, wired: bool): World
    decreases |ops|
  {
    if ops == [] then w else Operate(Perform(w, ops[0], wired), ops[1..], wired)
  }

  predicate NeverStrands(w: World, ops: seq<Operation>, wired: bool)
    decreases |ops|
  {
    || ops == []
    || (&& !(ops[0].RuntimeFailed? && Strands(w, ops[0].engine, ops[0].generation))
        && NeverStrands(Perform(w, ops[0], wired), ops[1..], wired))
  }

  /** Settings are loaded and nothing has been activated. */
  function Bootstrapped(oracle: Oracle, persisted: EngineId): World {
    World(EngineState(persisted, None, Uninitialized, None, [], None), Physical({}, {}, None), persisted, Free, map[],
          false, oracle, 0, None, false, false, true, true, true)
  }
}
