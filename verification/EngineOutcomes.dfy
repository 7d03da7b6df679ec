/** What an operation on the engines comes to, stated on the faults of the world before it. */
module EngineOutcomes {
  import opened Wrappers
  import opened TransportRouter
  import opened EngineWorld
  import opened EngineOperations
  import opened EngineSafety
  import opened EngineRuns
  import opened EngineFailures

  // ---------------------------------------------------------------------------
  // When a switch is refused
  // ---------------------------------------------------------------------------

  /** The call goes wrong, or the answer is yes, `after` moments from now. */
  predicate Strikes(w: World, call: Call, after: nat) {
    Fault(call, w.tick + after) in w.oracle
  }

  /** `target` is active and READY. */
  predicate Running(w: World, target: EngineId) {
    w.state.active == Some(target) && w.state.lifecycle == Ready
  }

  /** Its probe raises, or says that it cannot be activated. */
  predicate Unready(w: World, target: EngineId) {
    Strikes(w, Probe(target), 0) || Strikes(w, Inactive(target), 0)
  }

  /** The plan of a selection, for every world. */
  lemma PlanIs(w: World, target: EngineId)
    ensures var plan := SelectionPlan(w, target).1;
            if w.state.switchingTo != None then plan == Plan(RuntimeSwitch, Some(SwitchInProgress))
            else if Running(w, target) then
              plan == Plan(if w.state.selected == target then Noop else PreferenceOnly, None)
            else if Unready(w, target) then plan == Plan(Unreachable, Some(RuntimeUnavailable))
            else
              && plan.action == (if w.state.selected == target && w.state.active != Some(target) then RetryPreferred else RuntimeSwitch)
              && plan.blocker == (if w.lease == Held then Some(SwitchInProgress)
                                  else if w.lease == Free && Strikes(w, Pending, 1) then Some(MediaPending) else None)
  {
  }

  lemma PlanTakes(w: World, target: EngineId)
    requires w.state.switchingTo.None? && !w.lease.Held? && !Running(w, target) && !Unready(w, target)
    ensures var q := SelectionPlan(w, target).0;
            && q.oracle == w.oracle && q.lease == w.lease && q.tick == w.tick + if w.lease == Free then 2 else 1
  {
  }

  lemma TransactionRefuses(q: World, target: EngineId, wired: bool)
    requires !q.lease.Held?
    ensures var r := SwitchTransaction(q, target, wired).1;
            if q.lease == Free && Strikes(q, Pending, 0) then r == Refused(MediaPending) else !r.Refused?
  {
    hide SwitchLeased;
    LeasedIsNotRefused(Readiness(q).0.(lease := Held), target, wired);
  }

  lemma LeasedIsNotRefused(h: World, target: EngineId, wired: bool)
    ensures !SwitchLeased(h, target, wired).1.Refused?
  {
    hide SetPreference, Made, Publish, ActivateAndBind, Recover, AbortSelection;
  }

  /** A switch from a settled world is refused exactly when its target is not running and cannot be
      reached, or may not be interrupted by either of the two questions that are asked. */
  lemma RefusedIff(w: World, target: EngineId, wired: bool)
    requires Settled(w)
    ensures var r := SwitchTo(w, target, wired).1;
            && (r == Refused(RuntimeUnavailable) <==> !Running(w, target) && Unready(w, target))
            && (r == Refused(MediaPending) <==>
                !Running(w, target) && !Unready(w, target) && w.lease == Free && (Strikes(w, Pending, 1) || Strikes(w, Pending, 2)))
            && r != Refused(SwitchInProgress)
  {
    hide SelectionPlan, SwitchTransaction, SetPreference, Publish;
    var b := BeginOperation(w);
    PlanIs(b, target);
    var q := SelectionPlan(b, target).0;
    if !Running(w, target) && !Unready(w, target) {
      PlanTakes(b, target);
      TransactionRefuses(q, target, wired);
    }
  }

  /** Selecting the running engine moves nothing but the preference. */
  lemma RunningIsKept(w: World, target: EngineId, wired: bool)
    requires Settled(w) && Running(w, target)
    ensures var (z, r) := SwitchTo(w, target, wired);
            && z.physical == w.physical && z.lease == w.lease && z.generations == w.generations
            && z.state.active == w.state.active && z.state.lifecycle == w.state.lifecycle
            && (if w.state.selected != target && Strikes(w, Persist, 0) then
                  r == Raised(Fault(Persist, w.tick), None) && z.state == w.state && z.persisted == w.persisted
                else r == Done && z.state.selected == z.persisted == target)
            && (w.state.selected == target ==> z == BeginOperation(w))
  {
    if w.state.selected == target {
    } else if Strikes(w, Persist, 0) {
    } else {
    }
  }

  // ---------------------------------------------------------------------------
  // When a switch gets to its target
  // ---------------------------------------------------------------------------

  lemma LeaseIsHeld(w: World, target: EngineId)
    ensures LeaseMoment(w, target).Some? ==> LeaseMoment(w, target).value.lease.Held?
  {
    hide SelectionPlan, Readiness;
  }

  /** After a switch that came to its target the lease is with the rehydration exactly when that
      did not raise and goes on asynchronously, and free otherwise. */
  lemma RehydratesIff(w: World, target: EngineId, wired: bool)
    requires Settled(w) && TargetMoment(w, target).Some?
    ensures var (z, r) := SwitchTo(w, target, wired);
            var (a, up) := ActivateAndBind(TargetMoment(w, target).value, target, None, []);
            && (r.Done? <==> up.Up?)
            && (z.lease == if up.Up? && !Strikes(a, Rehydrate, 0) && Strikes(a, RehydrateAsync, 0) then Rehydrating else Free)
  {
    hide SwitchTo, LeaseMoment, SwitchLeased, LeasedMoment, ActivateAndBind;
    SwitchUnderLease(w, target, wired);
    LeaseIsHeld(w, target);
    LeasedRehydrates(LeaseMoment(w, target).value, target, wired);
  }

  lemma LeasedRehydrates(h: World, target: EngineId, wired: bool)
    requires h.lease.Held? && LeasedMoment(h, target).Some?
    ensures var (z, r) := SwitchLeased(h, target, wired);
            var (a, up) := ActivateAndBind(LeasedMoment(h, target).value, target, None, []);
            && (r.Done? <==> up.Up?)
            && (ReleaseLease(z).lease == if up.Up? && !Strikes(a, Rehydrate, 0) && Strikes(a, RehydrateAsync, 0) then Rehydrating else Free)
  {
    hide SetPreference, SwitchTarget, SwitchSource, SourceGone, ActivateAndBind;
    PreferenceKeepsLease(h, target);
    var p := SetPreference(h, target);
    var s := Made(Publish(p, MarkSelected(p.state, target)), Stop);
    if h.state.active.None? {
      TargetRehydrates(s, target, wired);
    } else {
      SourceRehydrates(s, h.state.active.value, target, wired);
    }
  }

  lemma PreferenceKeepsLease(h: World, e: EngineId)
    ensures SetPreference(h, e).lease == h.lease
  {
    if h.persisted == e {
    } else if Raises(h, Persist) {
    } else {
    }
  }

  lemma SourceRehydrates(s: World, active: EngineId, target: EngineId, wired: bool)
    requires s.lease.Held? && SourceGone(s, active).Some?
    ensures var (z, r) := SwitchSource(s, active, target, wired);
            var (a, up) := ActivateAndBind(SourceGone(s, active).value, target, None, []);
            && (r.Done? <==> up.Up?)
            && (ReleaseLease(z).lease == if up.Up? && !Strikes(a, Rehydrate, 0) && Strikes(a, RehydrateAsync, 0) then Rehydrating else Free)
  {
    hide SwitchTarget, ActivateAndBind, Unbind;
    UnbindKeepsLease(Publish(s, MarkClosing(s.state, active)));
    TargetRehydrates(SourceGone(s, active).value, target, wired);
  }

  lemma UnbindKeepsLease(c: World)
    ensures Unbind(c).lease == c.lease
  {
    if c.physical.bound.None? {
    } else if Raises(c, UnbindRaises) && Raises(c, UnbindKeeps) {
    } else {
    }
  }

  lemma TargetRehydrates(t: World, target: EngineId, wired: bool)
    requires t.lease.Held?
    ensures var (z, r) := SwitchTarget(t, target, wired);
            var (a, up) := ActivateAndBind(t, target, None, []);
            && (r.Done? <==> up.Up?)
            && (ReleaseLease(z).lease == if up.Up? && !Strikes(a, Rehydrate, 0) && Strikes(a, RehydrateAsync, 0) then Rehydrating else Free)
  {
    hide ActivateAndBind, TryQtFallback;
    ActivationKeepsLease(t, target, None, []);
    var (a, up) := ActivateAndBind(t, target, None, []);
    if !up.Up? {
      FallbackKeepsLease(a, target, [up.error]);
    }
  }

  lemma CleanupKeepsLease(w: World, e: EngineId, f: Fault)
    ensures Cleanup(w, e, f).0.lease == w.lease
  {
    hide Unbind;
    UnbindKeepsLease(w);
  }

  lemma AttachKeepsLease(o: World, e: EngineId)
    ensures AttachTarget(o, e).0.lease == o.lease
  {
    hide Cleanup;
    var b := BindRouter(o, e);
    CleanupKeepsLease(b, e, FaultOf(o, Attach(e)));
    CleanupKeepsLease(Made(b, Volume), e, FaultOf(b, Volume));
  }

  lemma ActivationKeepsLease(t: World, e: EngineId, from: Option<EngineId>, message: seq<Fault>)
    ensures ActivateAndBind(t, e, from, message).0.lease == t.lease
  {
    hide AttachTarget, Verdict;
    AttachKeepsLease(OpenProvider(Publish(t, MarkInitializing(t.state, e)), e), e);
  }

  lemma FallbackKeepsLease(w: World, from: EngineId, reason: seq<Fault>)
    ensures TryQtFallback(w, from, reason).0.lease == w.lease
  {
    hide ActivateAndBind;
    ActivationKeepsLease(NoteFallback(Made(w, Probe(QtMultimedia))), QtMultimedia, Some(from), reason);
  }

  // ---------------------------------------------------------------------------
  // The automatic fallback
  // ---------------------------------------------------------------------------

  /** READY on Qt in place of `from`, the preference kept and the reason told. */
  function OnQt(selected: EngineId, from: EngineId, reason: seq<Fault>): EngineState {
    EngineState(selected, Some(QtMultimedia), Ready, None, reason, Some(from))
  }

  /** No engine, and why. */
  function OnNothing(selected: EngineId, reason: seq<Fault>): EngineState {
    EngineState(selected, None, Failed, None, reason, None)
  }

  /** A fallback in which nothing goes wrong for four moments ends on Qt. */
  lemma FallbackSucceeds(w: World, from: EngineId, reason: seq<Fault>)
    requires w.physical.bound.None? && Clear(w, 4)
    ensures var (z, k) := TryQtFallback(w, from, reason);
            && k.Recovered? && z.state == OnQt(w.state.selected, from, reason)
            && z.physical.bound == Some(QtMultimedia) && QtMultimedia in z.physical.owned
  {
    hide ActivateAndBind, Clear, AllReleased;
    var n := NoteFallback(Made(w, Probe(QtMultimedia)));
    ClearMoment(w, 4, Probe(QtMultimedia));
    ClearMoment(w, 4, Inactive(QtMultimedia));
    ClearLater(w, n, 4, 1);
    ActivationUp(n, QtMultimedia, Some(from), reason);
  }

  /** When Qt says that it cannot be activated, the fallback ends on nothing, with both reasons. */
  lemma FallbackIsInactive(w: World, from: EngineId, reason: seq<Fault>)
    requires !Strikes(w, Probe(QtMultimedia), 0) && Strikes(w, Inactive(QtMultimedia), 0)
    ensures var (z, k) := TryQtFallback(w, from, reason);
            && k.NotRecovered? && z.physical == w.physical
            && z.state == OnNothing(w.state.selected, reason + [Fault(Inactive(QtMultimedia), w.tick)])
  {
    hide ActivateAndBind;
  }

  /** What made an activation fail. */
  function CauseOf(t: World, e: EngineId): Fault
    requires FailsReleased(t, e)
  {
    var i := Publish(t, MarkInitializing(t.state, e));
    var o := OpenProvider(i, e);
    if Raises(i, Open(e)) then Fault(Open(e), i.tick)
    else if Raises(o, Attach(e)) then Fault(Attach(e), o.tick)
    else Fault(Volume, BindRouter(o, e).tick)
  }

  lemma CleanupTells(w: World, e: EngineId, f: Fault)
    requires LetsGo(w, e)
    ensures var (z, a) := Cleanup(w, e, f); a == Released(f) && z.physical.bound.None? && z.state == w.state
  {
    UnbindFrames(w);
  }

  /** An activation that fails and is released tells its cause. */
  lemma ActivationTells(t: World, e: EngineId)
    requires FailsReleased(t, e) && t.physical.bound.None?
    ensures var (a, r) := ActivateAndBind(t, e, None, []);
            && ProvenReleased(r) && r.error == CauseOf(t, e)
            && a.state == OnNothing(t.state.selected, [CauseOf(t, e)]) && a.physical.bound.None?
  {
    hide Cleanup, LetsGo;
    var i := Publish(t, MarkInitializing(t.state, e));
    var o := OpenProvider(i, e);
    var b := BindRouter(o, e);
    if Raises(i, Open(e)) {
    } else if Raises(o, Attach(e)) {
      CleanupTells(b, e, FaultOf(o, Attach(e)));
    } else {
      CleanupTells(Made(b, Volume), e, FaultOf(b, Volume));
    }
  }

  /** Startup whose preferred engine is not Qt and cannot be activated falls back to Qt. */
  lemma StartupFallsBackInactive(w: World)
    requires Fresh(w) && !w.shutdown && w.state.selected != QtMultimedia
    requires !Strikes(w, Probe(w.state.selected), 0) && Strikes(w, Inactive(w.state.selected), 0)
    requires Clear(Asked(w), 4)
    ensures var e, z := w.state.selected, ConvergeStartup(w);
            z.state == OnQt(e, e, [Fault(Inactive(e), w.tick)]) && z.physical.bound == Some(QtMultimedia)
  {
    hide TryQtFallback, Clear;
    var b := BeginOperation(w);
    var e := w.state.selected;
    var m := Publish(Made(b, Probe(e)), MarkUnavailable(b.state, [FaultOf(b, Inactive(e))]));
    ClearLater(Asked(w), m, 4, 0);
    FallbackSucceeds(m, e, [FaultOf(b, Inactive(e))]);
  }

  /** Startup whose preferred engine is not Qt, fails and is released falls back to Qt. */
  lemma StartupFallsBackReleased(w: World)
    requires Fresh(w) && !w.shutdown && w.state.selected != QtMultimedia
    requires !Unready(w, w.state.selected) && FailsReleased(Made(BeginOperation(w), Probe(w.state.selected)), w.state.selected)
    requires Clear(ActivateAndBind(Made(BeginOperation(w), Probe(w.state.selected)), w.state.selected, None, []).0, 4)
    ensures var e, z := w.state.selected, ConvergeStartup(w);
            && z.state == OnQt(e, e, [CauseOf(Made(BeginOperation(w), Probe(e)), e)])
            && z.physical.bound == Some(QtMultimedia)
  {
    hide TryQtFallback, ActivateAndBind, FailsReleased, CauseOf, Clear;
    var e := w.state.selected;
    var p := Made(BeginOperation(w), Probe(e));
    ActivationTells(p, e);
    var a := ActivateAndBind(p, e, None, []).0;
    FallbackSucceeds(a, e, a.state.error);
  }

  /** Startup of Qt itself, or of an engine whose probe raises, never falls back. */
  lemma StartupStays(w: World)
    requires Fresh(w)
    ensures var e, z := w.state.selected, ConvergeStartup(w);
            && (w.shutdown ==> z == w)
            && (!w.shutdown && Strikes(w, Probe(e), 0) ==> z.state == w.state && z.physical == w.physical)
            && (!w.shutdown && !Strikes(w, Probe(e), 0) && e == QtMultimedia && Strikes(w, Inactive(e), 0) ==>
                  z.state == EngineState(e, None, Unavailable, None, [Fault(Inactive(e), w.tick)], None) && z.physical == w.physical)
  {
    hide TryQtFallback, ActivateAndBind;
  }

  /** A loss is handled exactly when it is reported, before shutdown, for the active engine and the
      generation in which it was last opened; otherwise nothing happens. */
  lemma LossIgnoredIff(w: World, e: EngineId, generation: nat)
    requires Settled(w)
    ensures HandleRuntimeFailure(w, e, generation) == w <==>
              w.shutdown || w.state.active != Some(e) || generation != (if e in w.generations then w.generations[e] else 0)
  {
    hide ConvergeRuntimeLoss, Settled;
    HandledAgainIff(w, e, generation);
  }

  lemma CloseLostKeepsLease(u: World, e: EngineId, blocked: bool)
    ensures CloseLost(u, e, blocked).lease == u.lease
  {
    hide TryQtFallback, MarkFailed, MarkConvergenceFailed;
    FallbackKeepsLease(CloseProvider(u, e), e, [FaultOf(u, RuntimeLost(e))]);
  }

  /** A handled loss stops playback, which ends a rehydration; otherwise the lease stays. */
  lemma LossEndsRehydration(w: World, e: EngineId, generation: nat)
    requires LossHandled(w, e, generation)
    ensures HandleRuntimeFailure(w, e, generation).lease == if w.lease == Rehydrating then Free else w.lease
  {
    hide Unbind, CloseLost, MarkBoundFailed;
    var u := DetachedMoment(w);
    UnbindKeepsLease(PlaybackConverged(BeginOperation(w)));
    CloseLostKeepsLease(u, e, Raises(BeginOperation(w), FallbackBlocked));
  }

  /** Before startup nothing is active, open, leased, shut down or in trouble. */
  lemma StartsWithNothing(oracle: Oracle, e: EngineId)
    ensures var w := Bootstrapped(oracle, e);
            && w.state == EngineState(e, None, Uninitialized, None, [], None)
            && w.physical == Physical({}, {}, None) && w.persisted == e && w.lease == Free && w.generations == map[]
            && w.oracle == oracle && w.tick == 0 && !w.shutdown && w.first.None? && !w.closeRaised && !w.troubled
    ensures forall engine, generation :: HandleRuntimeFailure(Bootstrapped(oracle, e), engine, generation) == Bootstrapped(oracle, e)
  {
    hide ConvergeRuntimeLoss;
  }

  /** The end of a rehydration frees the lease and nothing else; once the application shuts down
      no loss does anything, and no startup. */
  lemma EventsLeave(w: World, wired: bool, e: EngineId, generation: nat)
    ensures var z := Perform(w, RehydrationEnds, wired);
            && z.lease == Free && z.state == w.state && z.physical == w.physical && z.tick == w.tick && z.oracle == w.oracle
            && z.shutdown == w.shutdown && z.generations == w.generations && z.persisted == w.persisted
    ensures var z := Perform(w, ShutDown, wired); HandleRuntimeFailure(z, e, generation) == z && ConvergeStartup(z) == z
    ensures Perform(w, Switch(e), wired) == SwitchTo(w, e, wired).0
    ensures Perform(w, RuntimeFailed(e, generation), wired) == HandleRuntimeFailure(w, e, generation)
  {
    hide SwitchTo, ConvergeRuntimeLoss, ActivateAndBind, TryQtFallback;
  }

  /** A run performs its operations in order, each on what the ones before it left. */
  lemma {:induction false} OneMoreOperation(w: World, ops: seq<Operation>, op: Operation, wired: bool)
    ensures Operate(w, ops + [op], wired) == Perform(Operate(w, ops, wired), op, wired)
    decreases |ops|
  {
    hide Perform;
    if ops == [] {
      assert Operate(Perform(w, op, wired), [], wired) == Perform(w, op, wired);
      assert ([] + [op])[1..] == [];
    } else {
      assert (ops + [op])[0] == ops[0] && (ops + [op])[1..] == ops[1..] + [op];
      OneMoreOperation(Perform(w, ops[0], wired), ops[1..], op, wired);
    }
  }

  /** The moment at which the lost engine has been detached and is about to be closed. */
  function DetachedMoment(w: World): World {
    Unbind(PlaybackConverged(BeginOperation(w)))
  }

  lemma LostEnds(u: World, e: EngineId, blocked: bool)
    requires u.physical.bound.None? && !Raises(u, Close(e))
    ensures var z := CloseLost(u, e, blocked);
            var lost := [Fault(RuntimeLost(e), u.tick)];
            if e == QtMultimedia || blocked then
              z.state == OnNothing(u.state.selected, lost) && z.physical.bound.None? && z.generations == u.generations
            else
              Clear(CloseProvider(u, e), 4) ==>
                z.state == OnQt(u.state.selected, e, lost) && z.physical.bound == Some(QtMultimedia)
  {
    hide TryQtFallback, CloseProvider, Clear;
    CloseFrames(u, e);
    CloseKeepsBound(u, e);
    if Clear(CloseProvider(u, e), 4) {
      FallbackSucceeds(CloseProvider(u, e), e, [FaultOf(u, RuntimeLost(e))]);
    }
  }

  /** A handled loss whose engine was detached and closed: Qt takes over, unless it is Qt that was
      lost or the policy forbids it. */
  lemma LossEnds(w: World, e: EngineId, generation: nat)
    requires Settled(w) && LossHandled(w, e, generation)
    requires DetachedMoment(w).physical.bound.None? && !Raises(DetachedMoment(w), Close(e))
    ensures var u, z := DetachedMoment(w), HandleRuntimeFailure(w, e, generation);
            var lost := [Fault(RuntimeLost(e), u.tick)];
            if e == QtMultimedia || Strikes(w, FallbackBlocked, 0) then
              z.state == OnNothing(w.state.selected, lost) && z.physical.bound.None? && z.generations == w.generations
            else
              Clear(CloseProvider(u, e), 4) ==>
                z.state == OnQt(w.state.selected, e, lost) && z.physical.bound == Some(QtMultimedia)
  {
    hide CloseLost, Unbind, CloseProvider, Clear, Settled;
    UnbindFrames(PlaybackConverged(BeginOperation(w)));
    LostEnds(DetachedMoment(w), e, Raises(BeginOperation(w), FallbackBlocked));
  }

  lemma CloseKeepsBound(u: World, e: EngineId)
    ensures CloseProvider(u, e).physical.bound == u.physical.bound
  {
  }

  /** A switch whose target fails and is released raises the cause; with the recovery wired it ends
      on Qt, and without on nothing. */
  lemma SwitchFallsBack(w: World, target: EngineId, wired: bool)
    requires Settled(w) && !w.shutdown && target != QtMultimedia
    requires TargetMoment(w, target).Some? && FailsReleased(TargetMoment(w, target).value, target)
    requires Clear(ActivateAndBind(TargetMoment(w, target).value, target, None, []).0, 4)
    ensures var t := TargetMoment(w, target).value;
            var (z, r) := SwitchTo(w, target, wired);
            && r.Raised? && r.error == CauseOf(t, target)
            && z.state == (if wired then OnQt(target, target, [CauseOf(t, target)]) else OnNothing(target, [CauseOf(t, target)]))
            && z.physical.bound == (if wired then Some(QtMultimedia) else None)
  {
    hide SwitchTo, LeaseMoment, SwitchLeased, LeasedMoment, ActivateAndBind, FailsReleased, CauseOf, Clear, Settled, Orderly;
    SwitchUnderLease(w, target, wired);
    var h := LeaseMoment(w, target).value;
    LeasedFallsBack(h, target, wired);
    LeaseKeepsState(SwitchLeased(h, target, wired).0);
  }

  lemma LeasedFallsBack(h: World, target: EngineId, wired: bool)
    requires Orderly(h) && !h.shutdown && target != QtMultimedia
    requires LeasedMoment(h, target).Some? && FailsReleased(LeasedMoment(h, target).value, target)
    requires Clear(ActivateAndBind(LeasedMoment(h, target).value, target, None, []).0, 4)
    ensures var t := LeasedMoment(h, target).value;
            var (z, r) := SwitchLeased(h, target, wired);
            && r.Raised? && r.error == CauseOf(t, target)
            && z.state == (if wired then OnQt(target, target, [CauseOf(t, target)]) else OnNothing(target, [CauseOf(t, target)]))
            && z.physical.bound == (if wired then Some(QtMultimedia) else None)
  {
    hide SetPreference, SwitchTarget, SwitchSource, SourceGone, ActivateAndBind, FailsReleased, CauseOf, Clear;
    PreferenceKeepsShutdown(h, target);
    PreferenceSaved(h, target);
    var p := SetPreference(h, target);
    var s := Made(Publish(p, MarkSelected(p.state, target)), Stop);
    if h.state.active.None? {
      TargetFallsBack(s, target, wired);
    } else {
      SourceFallsBack(s, h.state.active.value, target, wired);
    }
  }

  lemma SourceFallsBack(s: World, active: EngineId, target: EngineId, wired: bool)
    requires !s.shutdown && target != QtMultimedia && s.state.selected == target
    requires SourceGone(s, active).Some? && FailsReleased(SourceGone(s, active).value, target)
    requires Clear(ActivateAndBind(SourceGone(s, active).value, target, None, []).0, 4)
    ensures var t := SourceGone(s, active).value;
            var (z, r) := SwitchSource(s, active, target, wired);
            && r.Raised? && r.error == CauseOf(t, target)
            && z.state == (if wired then OnQt(target, target, [CauseOf(t, target)]) else OnNothing(target, [CauseOf(t, target)]))
            && z.physical.bound == (if wired then Some(QtMultimedia) else None)
  {
    hide SwitchTarget, ActivateAndBind, FailsReleased, CauseOf, Clear, Unbind, CloseProvider;
    var c := Publish(s, MarkClosing(s.state, active));
    var u := Unbind(c);
    UnbindFrames(c);
    UnbindReleases(c);
    CloseFrames(u, active);
    CloseKeepsBound(u, active);
    TargetFallsBack(CloseProvider(u, active), target, wired);
  }

  lemma UnbindReleases(c: World)
    ensures !UnbindRaisesNow(c) ==> Unbind(c).physical.bound.None?
  {
    if c.physical.bound.None? {
    } else if Raises(c, UnbindRaises) && Raises(c, UnbindKeeps) {
    } else {
    }
  }

  lemma TargetFallsBack(t: World, target: EngineId, wired: bool)
    requires !t.shutdown && target != QtMultimedia && t.state.selected == target && t.physical.bound.None?
    requires FailsReleased(t, target) && Clear(ActivateAndBind(t, target, None, []).0, 4)
    ensures var (z, r) := SwitchTarget(t, target, wired);
            && r.Raised? && r.error == CauseOf(t, target)
            && z.state == (if wired then OnQt(target, target, [CauseOf(t, target)]) else OnNothing(target, [CauseOf(t, target)]))
            && z.physical.bound == (if wired then Some(QtMultimedia) else None)
  {
    hide ActivateAndBind, TryQtFallback, FailsReleased, CauseOf;
    ActivationTells(t, target);
    ActivationKeepsShutdown(t, target);
    var (a, up) := ActivateAndBind(t, target, None, []);
    FallbackSucceeds(a, target, [up.error]);
    ClearMoment(a, 4, Probe(QtMultimedia));
  }

  // ---------------------------------------------------------------------------
  // What the entry points promise of their objects
  // ---------------------------------------------------------------------------

  ghost predicate RefusedRightly(w: World, target: EngineId, r: SwitchResult) {
    && (r == Refused(RuntimeUnavailable) <==> !Running(w, target) && Unready(w, target))
    && (r == Refused(MediaPending) <==>
          !Running(w, target) && !Unready(w, target) && w.lease == Free && (Strikes(w, Pending, 1) || Strikes(w, Pending, 2)))
    && r != Refused(SwitchInProgress)
  }

  /** Qt takes over where the preferred engine is another one that is inactive, or that failed and
      was released, and nothing goes wrong for the next four moments. */
  ghost predicate FellBack(w: World, z: World) {
    var e, p := w.state.selected, Made(BeginOperation(w), Probe(w.state.selected));
    e != QtMultimedia && !w.shutdown && !Strikes(w, Probe(e), 0) ==>
      && (Strikes(w, Inactive(e), 0) && Clear(Asked(w), 4) ==>
            z.state == OnQt(e, e, [Fault(Inactive(e), w.tick)]) && z.physical.bound == Some(QtMultimedia))
      && (!Strikes(w, Inactive(e), 0) && FailsReleased(p, e) && Clear(ActivateAndBind(p, e, None, []).0, 4) ==>
            z.state == OnQt(e, e, [CauseOf(p, e)]) && z.physical.bound == Some(QtMultimedia))
  }

  lemma StartupFallsBack(w: World)
    requires Fresh(w)
    ensures FellBack(w, ConvergeStartup(w))
  {
    hide Fresh, Clear, ConvergeStartup, FailsReleased, ActivateAndBind, CauseOf;
    var e, p := w.state.selected, Made(BeginOperation(w), Probe(w.state.selected));
    if e != QtMultimedia && !w.shutdown && !Strikes(w, Probe(e), 0) {
      if Strikes(w, Inactive(e), 0) {
        if Clear(Asked(w), 4) {
          StartupFallsBackInactive(w);
        }
      } else if FailsReleased(p, e) && Clear(ActivateAndBind(p, e, None, []).0, 4) {
        StartupFallsBackReleased(w);
      }
    }
  }

  lemma SwitchRefusedRightly(w: World, target: EngineId, wired: bool)
    requires Settled(w)
    ensures RefusedRightly(w, target, SwitchTo(w, target, wired).1)
  {
    hide SwitchTo;
    RefusedIff(w, target, wired);
  }
}
