/** The audio engine state, the collaborators the coordinators drive, and the elementary
    actions on them.  A collaborator call that may raise asks an oracle, so a statement for
    every oracle is a statement for every failure pattern. */
module EngineWorld {
  import opened Wrappers
  import opened TransportRouter

  datatype Lifecycle = Uninitialized | Unavailable | Available | Initializing | Ready | Failed | Closing

  datatype Call =
    | Probe(engine: EngineId)        // raises
    | Inactive(engine: EngineId)     // the probe says: cannot activate
    | Pending                        // a media request is pending
    | Persist
    | Stop
    | UnbindRaises
    | UnbindKeeps                    // an unbind that raises keeps its binding
    | Open(engine: EngineId)
    | Attach(engine: EngineId)
    | Volume
    | Close(engine: EngineId)
    | Rehydrate                      // raises
    | RehydrateAsync                 // hands the lease to an asynchronous request
    | FallbackBlocked                // the output policy forbids automatic fallback
    | RuntimeLost(engine: EngineId)  // the reason a runtime-loss event carries

  /** A call at a moment: an exception raised there, or a yes to a question asked there. */
  datatype Fault = Fault(call: Call, at: nat)

  /** Everything that goes wrong in a run, and every yes. */
  type Oracle = set<Fault>

  /** `error` is the message: the primary fault first, secondary ones after it. */
  datatype EngineState = EngineState(selected: EngineId, active: Option<EngineId>, lifecycle: Lifecycle,
                                     switchingTo: Option<EngineId>, error: seq<Fault>, fallbackFrom: Option<EngineId>)

  datatype Lease = Free | Held | Rehydrating

  /** The open providers.  `owned` ones are tracked; a provider whose `close()` raised, or that
      was detached by an unbind that raised, is `leaked`: it may run on, out of sight. */
  datatype Physical = Physical(owned: set<EngineId>, leaked: set<EngineId>, bound: Option<EngineId>)

  /** `first` is the first exception raised in the current operation, `closeRaised` whether a
      close raised in it; `troubled` whether a close or an unbind has ever raised.
      `everSafe` records that every moment was safe, `everHonest` that every state handed to the
      observers was honest, `everReleased` that every automatic fallback was allowed. */
  datatype World = World(
    state: EngineState,
    physical: Physical,
    persisted: EngineId,
    lease: Lease,
    generations: map<EngineId, nat>,
    shutdown: bool,
    oracle: Oracle,
    tick: nat,
    first: Option<Fault>,
    closeRaised: bool,
    troubled: bool,
    everSafe: bool,
    everHonest: bool,
    everReleased: bool)

  // ---------------------------------------------------------------------------
  // Collaborator calls
  // ---------------------------------------------------------------------------

  predicate Raises(w: World, call: Call) {
    FaultOf(w, call) in w.oracle
  }

  function FaultOf(w: World, call: Call): Fault {
    Fault(call, w.tick)
  }

  function FirstOf(w: World, call: Call): Option<Fault> {
    if w.first.None? && Raises(w, call) then Some(FaultOf(w, call)) else w.first
  }

  /** The call was made: time advances, and the first exception is on record. */
  function Made(w: World, call: Call): World {
    w.(tick := w.tick + 1,
       first := FirstOf(w, call),
       closeRaised := w.closeRaised || (call.Close? && Raises(w, call)),
       troubled := w.troubled || ((call.Close? || call.UnbindRaises?) && Raises(w, call)))
  }

  /** A yes-or-no question to a collaborator. */
  function Asked(w: World): World {
    w.(tick := w.tick + 1)
  }

  predicate AtMostOne(s: set<EngineId>) {
    !(QtMultimedia in s && GStreamer in s) && !(QtMultimedia in s && Mpd in s) && !(GStreamer in s && Mpd in s)
  }

  /** The coordinators own at most one open provider, the router is not bound to a closed one,
      and nothing runs on out of sight unless a close or an unbind has raised. */
  predicate MomentSafe(p: Physical, troubled: bool) {
    && AtMostOne(p.owned)
    && (p.bound.Some? ==> p.bound.value in p.owned)
    && (p.leaked == {} || troubled)
  }

  function Become(w: World, p: Physical): World {
    w.(physical := p, everSafe := w.everSafe && MomentSafe(p, w.troubled))
  }

  predicate PreferenceRaises(w: World, e: EngineId) {
    w.persisted != e && Raises(w, Persist)
  }

  /** `SettingsService.set_audio_engine`: a no-op for the persisted engine, else a save that
      commits or raises with nothing changed. */
  function SetPreference(w: World, e: EngineId): World {
    if w.persisted == e then w
    else if Raises(w, Persist) then Made(w, Persist)
    else Made(w, Persist).(persisted := e)
  }

  predicate UnbindRaisesNow(w: World) {
    w.physical.bound.Some? && Raises(w, UnbindRaises)
  }

  function Unbind(w: World): World {
    if w.physical.bound.None? then w
    else if Raises(w, UnbindRaises) && Raises(w, UnbindKeeps) then Made(w, UnbindRaises)
    else Become(Made(w, UnbindRaises), w.physical.(bound := None))
  }

  function Generation(w: World, e: EngineId): nat {
    if e in w.generations then w.generations[e] else 0
  }

  function OpenProvider(w: World, e: EngineId): World {
    if Raises(w, Open(e)) then Made(w, Open(e))
    else Become(Made(w, Open(e)).(generations := w.generations[e := Generation(w, e) + 1]),
                w.physical.(owned := w.physical.owned + {e}, leaked := w.physical.leaked - {e}))
  }

  /** The provider is no longer tracked, though it has not been closed. */
  function Leak(p: Physical, e: EngineId): Physical {
    p.(owned := p.owned - {e}, leaked := if e in p.owned then p.leaked + {e} else p.leaked)
  }

  function CloseProvider(w: World, e: EngineId): World {
    Become(Made(w, Close(e)),
           if Raises(w, Close(e)) then Leak(w.physical, e)
           else w.physical.(owned := w.physical.owned - {e}, leaked := w.physical.leaked - {e}))
  }

  function Abandon(w: World, e: EngineId): World {
    Become(w, Leak(w.physical, e))
  }

  /** The router detaches whatever is bound first, and stays unbound when the attach fails. */
  function BindRouter(w: World, e: EngineId): World {
    Become(Made(w, Attach(e)), w.physical.(bound := if Raises(w, Attach(e)) then None else Some(e)))
  }

  // ---------------------------------------------------------------------------
  // AudioEngineService transitions
  // ---------------------------------------------------------------------------

  predicate ReadyOnlyBound(s: EngineState, bound: Option<EngineId>) {
    s.lifecycle.Ready? ==> s.active.Some? && bound == s.active
  }

  /** The new state is handed to the observers at once. */
  function Publish(w: World, s: EngineState): World {
    w.(state := s, everHonest := w.everHonest && ReadyOnlyBound(s, w.physical.bound))
  }

  function MarkInitializing(s: EngineState, e: EngineId): EngineState {
    EngineState(s.selected, None, Initializing, Some(e), [], None)
  }

  function MarkReady(s: EngineState, e: EngineId): EngineState {
    EngineState(s.selected, Some(e), Ready, None, [], None)
  }

  function MarkFailed(s: EngineState, message: seq<Fault>): EngineState {
    EngineState(s.selected, None, Failed, None, message, None)
  }

  function MarkUnavailable(s: EngineState, message: seq<Fault>): EngineState {
    EngineState(s.selected, None, Unavailable, None, message, None)
  }

  function RestoreSelected(s: EngineState, e: EngineId): EngineState {
    EngineState(e, s.active, s.lifecycle, s.switchingTo, s.error, None)
  }

  function MarkSelected(s: EngineState, e: EngineId): EngineState {
    EngineState(e, s.active, s.lifecycle, Some(e), [], None)
  }

  function MarkSelectionAborted(s: EngineState, e: EngineId): EngineState {
    EngineState(e, s.active, s.lifecycle, None, s.error, s.fallbackFrom)
  }

  function MarkClosing(s: EngineState, e: EngineId): EngineState {
    EngineState(s.selected, Some(e), Closing, s.switchingTo, [], None)
  }

  function MarkBoundFailed(s: EngineState, e: EngineId, message: seq<Fault>): EngineState {
    EngineState(s.selected, Some(e), Failed, None, message, None)
  }

  function MarkFallbackReady(s: EngineState, e: EngineId, from: EngineId, message: seq<Fault>): EngineState {
    EngineState(s.selected, Some(e), Ready, None, message, Some(from))
  }

  /** The source's `mark_failed` and `mark_convergence_failed` project the same state. */
  function MarkConvergenceFailed(s: EngineState, message: seq<Fault>): EngineState {
    MarkFailed(s, message)
  }

  // ---------------------------------------------------------------------------
  // Safety of what happened
  // ---------------------------------------------------------------------------

  function BoundSet(p: Physical): set<EngineId> {
    if p.bound.Some? then {p.bound.value} else {}
  }

  /** Safe now and ever before. */
  predicate MomentsSafe(w: World) {
    MomentSafe(w.physical, w.troubled) && w.everSafe && w.everReleased
  }

  /** Nothing is bound and nothing tracked is running. */
  predicate AllReleased(w: World) {
    w.physical.bound.None? && w.physical.owned == {}
  }

  predicate AtRest(s: EngineState) {
    !s.lifecycle.Initializing? && !s.lifecycle.Closing? && s.switchingTo.None?
  }

  /** The state tells where the router is bound, and READY only when it is bound. */
  predicate Faithful(w: World) {
    && w.state.active == w.physical.bound
    && (w.state.lifecycle.Ready? ==> w.physical.bound.Some?)
  }

  /** No transition is under way, and the only open provider is the bound one. */
  predicate Orderly(w: World) {
    && MomentsSafe(w)
    && w.physical.owned == BoundSet(w.physical)
    && (w.physical.bound.Some? ==> w.state.active == w.physical.bound)
    && AtRest(w.state)
    && w.state.selected == w.persisted
  }

  /** What holds between operations, whatever failed. */
  predicate Settled(w: World) {
    Orderly(w) && !w.lease.Held?
  }

  /** What also holds while no fallback probe has raised in the middle of a runtime loss. */
  predicate Truthful(w: World) {
    w.everHonest && Faithful(w)
  }

  // ---------------------------------------------------------------------------
  // What every action keeps
  // ---------------------------------------------------------------------------

  /** `w'` happened after `w` in the same operation. */
  predicate Later(w: World, w': World) {
    && w'.shutdown == w.shutdown
    && w.tick <= w'.tick
    && (w.first.Some? ==> w'.first == w.first)
  }

  lemma UnbindSafe(w: World)
    requires MomentsSafe(w)
    ensures MomentsSafe(Unbind(w))
    ensures Unbind(w).physical.bound.Some? ==> UnbindRaisesNow(w)
    ensures Unbind(w).physical.owned == w.physical.owned
  {
  }

  lemma OpenSafe(w: World, e: EngineId)
    requires MomentsSafe(w) && AllReleased(w)
    ensures MomentsSafe(OpenProvider(w, e))
    ensures OpenProvider(w, e).physical.bound.None?
    ensures OpenProvider(w, e).physical.owned == if Raises(w, Open(e)) then {} else {e}
  {
  }

  lemma CloseSafe(w: World, e: EngineId)
    requires MomentsSafe(w) && w.physical.bound.None? && w.physical.owned <= {e}
    ensures MomentsSafe(CloseProvider(w, e)) && AllReleased(CloseProvider(w, e))
  {
    assert w.physical.owned - {e} == {};
  }

  lemma AbandonSafe(w: World, e: EngineId)
    requires MomentsSafe(w) && w.physical.bound.None? && w.physical.owned <= {e} && w.troubled
    ensures MomentsSafe(Abandon(w, e)) && AllReleased(Abandon(w, e))
  {
    assert w.physical.owned - {e} == {};
  }
}
