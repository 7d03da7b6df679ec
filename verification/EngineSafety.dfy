/** One engine at a time, no closed engine bound, an honest state and the first error: over
    every run, for every pattern of failures. */
module EngineSafety {
  import opened Wrappers
  import opened TransportRouter
  import opened EngineWorld
  import opened EngineOperations

  /** What a step inside an operation leaves alone. */
  predicate Continues(w: World, w': World) {
    && Later(w, w')
    && w'.persisted == w.persisted
    && w'.lease == w.lease
    && w'.state.selected == w.state.selected
  }

  predicate Consistent(w: World) {
    && MomentsSafe(w)
    && w.physical.owned == BoundSet(w.physical)
    && AtRest(w.state)
    && Faithful(w)
  }

  predicate PublishesHonestly(w: World, w': World) {
    w.everHonest ==> w'.everHonest
  }

  /** A step that raised `f` recorded it, unless the operation had failed before. */
  predicate FirstFault(w: World, w': World, f: Fault) {
    w'.first == if w.first.None? then Some(f) else w.first
  }

  // ---------------------------------------------------------------------------
  // Activation
  // ---------------------------------------------------------------------------

  predicate Activated(w: World, z: World, e: EngineId, a: Activation) {
    && MomentsSafe(z)
    && Continues(w, z)
    && (a.StillBound? ==> a.owner == e)
    && (if a.Up? || a.StillBound? then z.physical.bound == Some(e) && z.physical.owned == {e} else AllReleased(z))
    && (!w.closeRaised && ProvenReleased(a) ==> !z.closeRaised)
    && (a.ReleaseFailed? ==> z.closeRaised)
    && (if a.Up? then z.first == w.first else FirstFault(w, z, a.error))
    && PublishesHonestly(w, z)
  }

  /** A failed activation let go of `e`, or could not. */
  predicate CleanedUp(w: World, z: World, e: EngineId, f: Fault, a: Activation) {
    && MomentsSafe(z) && Continues(w, z) && z.everHonest == w.everHonest
    && (a.StillBound? || a.Released? || a.ReleaseFailed?)
    && a.error == f
    && (if a.StillBound? then a.owner == e && z.physical.bound == Some(e) && z.physical.owned == {e} else AllReleased(z))
    && (!w.closeRaised && a.Released? ==> !z.closeRaised)
    && (a.ReleaseFailed? ==> z.closeRaised)
  }

  lemma ReleaseTargetSafe(u: World, e: EngineId, f: Fault)
    requires MomentsSafe(u) && u.physical.owned == {e} && u.physical.bound.None?
    ensures var (z, a) := ReleaseTarget(u, e, f); CleanedUp(u, z, e, f, a)
  {
    CloseSafe(u, e);
  }

  lemma CleanupSafe(w: World, e: EngineId, f: Fault)
    requires MomentsSafe(w) && w.physical.owned == {e} && BoundSet(w.physical) <= {e}
    ensures var (z, a) := Cleanup(w, e, f); CleanedUp(w, z, e, f, a)
  {
    var u := Unbind(w);
    if u.physical.bound.None? {
      ReleaseTargetSafe(u, e, f);
    }
  }

  lemma AttachTargetSafe(o: World, e: EngineId)
    requires MomentsSafe(o) && o.physical.owned == {e} && o.physical.bound.None?
    ensures var (z, a) := AttachTarget(o, e); Activated(o, z, e, a)
  {
    var b := BindRouter(o, e);
    if Raises(o, Attach(e)) {
      CleanupSafe(b, e, FaultOf(o, Attach(e)));
    } else if Raises(b, Volume) {
      CleanupSafe(Made(b, Volume), e, FaultOf(b, Volume));
    } else {
    }
  }

  lemma ActivateSafe(w: World, e: EngineId)
    requires MomentsSafe(w) && AllReleased(w)
    ensures var (z, a) := Activate(w, e); Activated(w, z, e, a)
  {
    var i := Publish(w, MarkInitializing(w.state, e));
    if Raises(i, Open(e)) {
    } else {
      OpenSafe(i, e);
      AttachTargetSafe(OpenProvider(i, e), e);
    }
  }

  lemma ActivateAndBindSafe(w: World, e: EngineId, from: Option<EngineId>, message: seq<Fault>)
    requires MomentsSafe(w) && AllReleased(w)
    ensures var (z, a) := ActivateAndBind(w, e, from, message);
            && Activated(w, z, e, a)
            && Consistent(z)
            && (if a.Up? then z.state.lifecycle.Ready? else z.state.lifecycle.Failed? && |z.state.error| > 0 && z.state.error[0] == a.error)
  {
    ActivateSafe(w, e);
    var (v, a) := Activate(w, e);
  }

  // ---------------------------------------------------------------------------
  // Fallback
  // ---------------------------------------------------------------------------

  /** What a fallback from `w` leaves: an honest state unless the Qt probe raised, in which
      case nothing but the clock has moved. */
  predicate FellBack(w: World, z: World, k: Recovery) {
    && MomentsSafe(z)
    && Continues(w, z)
    && PublishesHonestly(w, z)
    && k.ProbeRaised? == Raises(w, Probe(QtMultimedia))
    && (if k.ProbeRaised? then
          z.state == w.state && AllReleased(z) && FirstFault(w, z, k.error) && z.everHonest == w.everHonest
        else Consistent(z))
    && (k.Recovered? ==> z.physical.bound == Some(QtMultimedia) && z.state.lifecycle.Ready?)
    && (k.NotRecovered? ==> z.state.lifecycle.Failed?)
    && (z.physical.bound.None? || z.physical.bound == Some(QtMultimedia))
  }

  lemma FallbackIsSafe(w: World, from: EngineId, reason: seq<Fault>)
    requires MomentsSafe(w) && AllReleased(w) && !w.closeRaised
    ensures var (z, k) := TryQtFallback(w, from, reason); FellBack(w, z, k)
  {
    var p := Made(w, Probe(QtMultimedia));
    if !Raises(w, Probe(QtMultimedia)) && !Raises(w, Inactive(QtMultimedia)) {
      ActivateAndBindSafe(NoteFallback(p), QtMultimedia, Some(from), reason);
    }
  }

  // ---------------------------------------------------------------------------
  // Explicit switch
  // ---------------------------------------------------------------------------

  /** The exception a switch raises is the first one of the operation, except that the Qt probe
      of the recovery may raise in its place. */
  predicate RaisesFirst(z: World, r: SwitchResult) {
    r.Raised? ==> (z.first == Some(r.error) <==> r.error.call != Probe(QtMultimedia))
  }

  predicate Succeeds(z: World, target: EngineId) {
    z.state.active == Some(target) && z.state.lifecycle.Ready? && z.state.selected == target
  }

  /** The recorded stage tells what became of the engines, `source` being the one the router was
      bound to; where it says that everything was released, a recovery may have followed. */
  predicate StageTells(source: Option<EngineId>, z: World, target: EngineId, r: SwitchResult, wired: bool) {
    r.Raised? && r.stage.Some? ==>
      match r.stage.value
      case SourceUnbind => source.Some? && (StillBoundTo(z, source.value) || GivenUp(z, source))
      case SourceClose => GivenUp(z, source) && z.closeRaised
      case TargetOpen => wired || (AllReleased(z) && !z.closeRaised)
      case TargetDetachedReleased => wired || (AllReleased(z) && !z.closeRaised)
      case TargetDetachedCloseFailed => AllReleased(z) && z.closeRaised
      case TargetStillBound => z.physical.bound == Some(target)
  }

  /** The router kept the source engine, which the state calls active. */
  predicate StillBoundTo(z: World, source: EngineId) {
    z.physical.bound == z.state.active == Some(source) && z.physical.owned == {source}
  }

  /** Nothing is tracked and nothing active; the source engine may run on, out of sight. */
  predicate GivenUp(z: World, source: Option<EngineId>) {
    AllReleased(z) && z.state.active.None? && (source.Some? ==> source.value in z.physical.leaked)
  }

  /** The end of a switch that crossed the destructive boundary. */
  predicate SwitchEnds(source: Option<EngineId>, w: World, z: World, target: EngineId, r: SwitchResult, wired: bool) {
    && Orderly(z)
    && Faithful(z)
    && z.shutdown == w.shutdown
    && PublishesHonestly(w, z)
    && RaisesFirst(z, r)
    && !r.Refused?
    && (r.Done? ==> Succeeds(z, target))
    && StageTells(source, z, target, r, wired)
  }

  lemma RecoverySafe(w: World, target: EngineId, f: Fault)
    requires Consistent(w) && AllReleased(w) && !w.closeRaised
    ensures var (z, k) := Recover(w, target, [f]);
            && Consistent(z) && Continues(w, z) && PublishesHonestly(w, z)
            && (k.ProbeRaised? ==> k.error.call == Probe(QtMultimedia))
  {
    if !w.shutdown && target != QtMultimedia {
      FallbackIsSafe(w, target, [f]);
    }
  }

  lemma UpEnds(source: Option<EngineId>, w: World, a: World, target: EngineId, wired: bool)
    requires Activated(w, a, target, Up) && Consistent(a) && a.state.lifecycle.Ready?
    requires w.state.selected == target && w.persisted == target
    ensures var p := Made(a, Rehydrate);
            && SwitchEnds(source, w, p, target, Done, wired)
            && SwitchEnds(source, w, p.(lease := Rehydrating), target, Done, wired)
  {
  }

  lemma FailedEnds(source: Option<EngineId>, w: World, a: World, r: Activation, target: EngineId, wired: bool)
    requires Activated(w, a, target, r) && Consistent(a) && w.first.None? && !w.closeRaised && !r.Up?
    requires w.state.selected == target && w.persisted == target
    requires r.error.call != Probe(QtMultimedia) && !(ProvenReleased(r) && wired)
    ensures SwitchEnds(source, w, a, target, Raised(r.error, StageOf(r)), wired)
  {
  }

  lemma RecoveredEnds(source: Option<EngineId>, w: World, a: World, r: Activation, z: World, k: Recovery, target: EngineId)
    requires Activated(w, a, target, r) && w.first.None? && ProvenReleased(r) && r.error.call != Probe(QtMultimedia)
    requires Consistent(z) && Continues(a, z) && PublishesHonestly(a, z)
    requires k.ProbeRaised? ==> k.error.call == Probe(QtMultimedia)
    requires w.state.selected == target && w.persisted == target
    ensures SwitchEnds(source, w, z, target, Raised(if k.ProbeRaised? then k.error else r.error, StageOf(r)), true)
  {
  }

  lemma SwitchTargetSafe(source: Option<EngineId>, w: World, target: EngineId, wired: bool)
    requires MomentsSafe(w) && AllReleased(w) && w.first.None? && !w.closeRaised
    requires w.state.selected == target && w.persisted == target
    ensures var (z, r) := SwitchTarget(w, target, wired); SwitchEnds(source, w, z, target, r, wired)
  {
    hide ActivateAndBind, Recover, SwitchEnds, Made, Consistent;
    ActivateAndBindSafe(w, target, None, []);
    ActivationFault(w, target, None, []);
    var (a, r) := ActivateAndBind(w, target, None, []);
    if r.Up? {
      UpEnds(source, w, a, target, wired);
    } else if ProvenReleased(r) && wired {
      RecoverySafe(a, target, r.error);
      RecoveredEnds(source, w, a, r, Recover(a, target, [r.error]).0, Recover(a, target, [r.error]).1, target);
    } else {
      FailedEnds(source, w, a, r, target, wired);
    }
  }

  lemma ActivationFault(w: World, e: EngineId, from: Option<EngineId>, message: seq<Fault>)
    ensures var (z, a) := ActivateAndBind(w, e, from, message);
            !a.Up? ==> a.error.call == Open(e) || a.error.call == Attach(e) || a.error.call == Volume
  {
  }

  /** The router has been asked to let go of the source engine `active`. */
  predicate LettingGo(u: World, active: EngineId, target: EngineId) {
    && MomentsSafe(u) && !u.closeRaised
    && BoundSet(u.physical) <= u.physical.owned <= {active}
    && u.state.selected == target && u.persisted == target
  }

  /** The source engine, if the router was bound to one, is `active` and still open. */
  predicate SourceOpen(source: Option<EngineId>, u: World, active: EngineId) {
    source.Some? ==> source.value == active && active in u.physical.owned
  }

  lemma SourceStuckSafe(source: Option<EngineId>, u: World, active: EngineId, target: EngineId, f: Fault, wired: bool)
    requires LettingGo(u, active, target) && u.troubled && u.first == Some(f) && f.call == UnbindRaises
    requires source.Some? && SourceOpen(source, u, active)
    ensures SwitchEnds(source, u, SourceStuck(u, active, f), target, Raised(f, Some(SourceUnbind)), wired)
  {
    if u.physical.bound.None? {
      AbandonSafe(u, active);
    }
  }

  lemma CloseSourceSafe(source: Option<EngineId>, u: World, active: EngineId, target: EngineId, wired: bool)
    requires LettingGo(u, active, target) && u.first.None? && u.physical.bound.None?
    requires SourceOpen(source, u, active)
    ensures var (z, r) := CloseSource(u, active, target, wired); SwitchEnds(source, u, z, target, r, wired)
  {
    CloseSafe(u, active);
    if !Raises(u, Close(active)) {
      SwitchTargetSafe(source, CloseProvider(u, active), target, wired);
    }
  }

  lemma SwitchSourceSafe(w: World, active: EngineId, target: EngineId, wired: bool)
    requires LettingGo(w, active, target) && w.first.None?
    ensures var (z, r) := SwitchSource(w, active, target, wired); SwitchEnds(w.physical.bound, w, z, target, r, wired)
  {
    hide SourceStuck, CloseSource;
    var u := Unbind(Publish(w, MarkClosing(w.state, active)));
    if UnbindRaisesNow(Publish(w, MarkClosing(w.state, active))) {
      SourceStuckSafe(w.physical.bound, u, active, target, u.first.value, wired);
    } else {
      CloseSourceSafe(w.physical.bound, u, active, target, wired);
    }
  }

  // ---------------------------------------------------------------------------
  // The router behind the world
  // ---------------------------------------------------------------------------

  /** What the engine world says of binding is what the transport router does: a bind of a new
      port ends bound to its engine or, when an attach raises, unbound. */
  lemma RouterBinds(w: World, r: Router, e: EngineId, port: Port, fault: AttachFault, stuckOld: set<nat>, stuckNew: set<nat>)
    requires Inv(r) && r.engine == w.physical.bound && !AlreadyBound(r, e, port)
    requires AttachSucceeds(fault) == !Raises(w, EngineWorld.Attach(e))
    ensures Rebound(r, e, port, fault, stuckOld, stuckNew).engine == BindRouter(w, e).physical.bound
  {
    hide Inv;
    BindBindsOrUnbinds(r, e, port, fault, stuckOld, stuckNew);
  }

  /** And its unbind never raises and never keeps the binding. */
  lemma RouterUnbinds(w: World, r: Router, stuck: set<nat>)
    requires Inv(r) && r.engine == w.physical.bound && !Raises(w, UnbindRaises)
    ensures Detached(r, stuck).engine == EngineWorld.Unbind(w).physical.bound == None
  {
  }
}
