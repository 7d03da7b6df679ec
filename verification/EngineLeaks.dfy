/** Engines that run on out of sight: when none can, and when two do. */
module EngineLeaks {
  import opened Wrappers
  import opened TransportRouter
  import opened EngineWorld
  import opened EngineOperations
  import opened EngineSafety
  import opened EngineRuns
  import opened EngineFailures

  // ---------------------------------------------------------------------------
  // Why a close must not raise
  // ---------------------------------------------------------------------------

  /** The source of a switch whose close raises runs on, untracked, and the router is free. */
  lemma RaisedCloseLeaks(u: World, active: EngineId, target: EngineId, wired: bool)
    requires u.physical.bound.None? && u.physical.owned == {active} && Raises(u, Close(active))
    ensures var (z, r) := CloseSource(u, active, target, wired);
            && z.physical == Physical({}, u.physical.leaked + {active}, None)
            && z.state.active.None? && r == Raised(FaultOf(u, Close(active)), Some(SourceClose))
  {
    assert u.physical.owned - {active} == {};
  }

  predicate Beside(before: Physical, after: Physical, target: EngineId) {
    after == Physical({target}, before.leaked - {target}, Some(target))
  }

  lemma AttachRunsBeside(o: World, e: EngineId)
    ensures var (z, a) := AttachTarget(o, e); a.Up? ==> z.physical == o.physical.(bound := Some(e))
  {
    hide Cleanup;
    CleanupIsNotUp(BindRouter(o, e), e, FaultOf(o, Attach(e)));
    CleanupIsNotUp(Made(BindRouter(o, e), Volume), e, FaultOf(BindRouter(o, e), Volume));
  }

  lemma CleanupIsNotUp(w: World, e: EngineId, f: Fault)
    ensures !Cleanup(w, e, f).1.Up?
  {
  }

  lemma ActivationRunsBeside(w: World, e: EngineId)
    requires AllReleased(w)
    ensures var (z, a) := ActivateAndBind(w, e, None, []); a.Up? ==> Beside(w.physical, z.physical, e)
  {
    hide AttachTarget, Verdict;
    var i := Publish(w, MarkInitializing(w.state, e));
    assert w.physical.owned + {e} == {e};
    AttachRunsBeside(OpenProvider(i, e), e);
  }

  lemma TargetRunsBeside(s: World, target: EngineId, wired: bool)
    requires AllReleased(s)
    ensures var (z, r) := SwitchTarget(s, target, wired); r.Done? ==> Beside(s.physical, z.physical, target)
  {
    ActivationRunsBeside(s, target);
  }

  lemma PersistedRunsBeside(p: World, was: EngineState, target: EngineId, wired: bool)
    requires AllReleased(p) && was.active.None?
    ensures var (z, r) := SwitchPersisted(p, was, target, wired); r.Done? ==> Beside(p.physical, z.physical, target)
  {
    TargetRunsBeside(Made(Publish(p, MarkSelected(p.state, target)), Stop), target, wired);
  }

  lemma LeasedRunsBeside(h: World, target: EngineId, wired: bool)
    requires AllReleased(h) && h.state.active.None?
    ensures var (z, r) := SwitchLeased(h, target, wired); r.Done? ==> Beside(h.physical, z.physical, target)
  {
    var p := SetPreference(h, target);
    if PreferenceRaises(h, target) {
    } else {
      assert p.physical == h.physical;
      PersistedRunsBeside(p, h.state, target, wired);
    }
  }

  lemma TransactionRunsBeside(w: World, target: EngineId, wired: bool)
    requires AllReleased(w) && w.state.active.None?
    ensures var (z, r) := SwitchTransaction(w, target, wired); r.Done? ==> Beside(w.physical, z.physical, target)
  {
    var (b, blocker) := Readiness(w);
    if blocker.Some? {
    } else {
      assert b.physical == w.physical;
      LeasedRunsBeside(b.(lease := Held), target, wired);
    }
  }

  /** Every successful retry after that opens its target beside the leaked provider, unless it
      is that very provider: two engines then run at once. */
  lemma RetryRunsBeside(w: World, target: EngineId, wired: bool)
    requires Settled(w) && AllReleased(w) && w.state.active.None?
    ensures var (z, r) := SwitchTo(w, target, wired); r.Done? ==> Beside(w.physical, z.physical, target)
  {
    var b := BeginOperation(w);
    PlanKeeps(b, target);
    var (q, plan) := SelectionPlan(b, target);
    if plan.action.Unreachable? || plan.blocker.Some? {
    } else {
      TransactionRunsBeside(q, target, wired);
    }
  }

  /** A switch that raises at the close of its source, and the next one that succeeds: the source
      is open beside the target, and nothing tracks it. */
  lemma TwoEnginesRun(w: World, first: EngineId, target: EngineId, wired: bool)
    requires Settled(w) && w.physical.bound.Some?
    requires SwitchTo(w, first, wired).1.Raised? && SwitchTo(w, first, wired).1.stage == Some(SourceClose)
    requires SwitchTo(SwitchTo(w, first, wired).0, target, wired).1.Done?
    ensures var source := w.physical.bound.value;
            var z := SwitchTo(SwitchTo(w, first, wired).0, target, wired).0;
            && z.physical.owned == {target} && z.physical.bound == Some(target)
            && (source in z.physical.leaked <==> source != target)
  {
    hide SwitchTo, Settled;
    SwitchKeeps(w, first, wired);
    RetryRunsBeside(SwitchTo(w, first, wired).0, target, wired);
  }

  lemma SourceCloseRaises(s: World, target: EngineId, wired: bool)
    requires s.tick == 4 && s.oracle == {Fault(Close(QtMultimedia), 10)} && s.lease.Free? && target != QtMultimedia
    requires Settled(s) && s.state.active == s.physical.bound == Some(QtMultimedia) && s.persisted == QtMultimedia
    ensures var (z, r) := SwitchTo(s, target, wired);
            && r == Raised(Fault(Close(QtMultimedia), 10), Some(SourceClose))
            && z.tick == 11 && z.oracle == s.oracle
  {
    hide SwitchLeased;
    var b := BeginOperation(s);
    var q := Asked(Made(b, Probe(target)));
    var h := Asked(q).(lease := Held);
    assert LeaseMoment(s, target) == Some(h) && h.tick == 7;
    SwitchUnderLease(s, target, wired);
    LeasedCloseRaises(h, target, wired);
  }

  lemma LeasedCloseRaises(h: World, target: EngineId, wired: bool)
    requires h.tick == 7 && h.oracle == {Fault(Close(QtMultimedia), 10)} && target != QtMultimedia
    requires h.state.active == h.physical.bound == Some(QtMultimedia) && h.persisted == QtMultimedia
    ensures var (z, r) := SwitchLeased(h, target, wired);
            && r == Raised(Fault(Close(QtMultimedia), 10), Some(SourceClose))
            && z.tick == 11 && z.oracle == h.oracle
  {
    hide SwitchSource;
    var p := SetPreference(h, target);
    assert !Raises(h, Persist) && p == h.(tick := 8, persisted := target);
    CloseRaises(Made(Publish(p, MarkSelected(p.state, target)), Stop), target, wired);
  }

  lemma CloseRaises(s: World, target: EngineId, wired: bool)
    requires s.tick == 9 && s.oracle == {Fault(Close(QtMultimedia), 10)} && s.physical.bound.Some?
    ensures var (z, r) := SwitchSource(s, QtMultimedia, target, wired);
            && r == Raised(Fault(Close(QtMultimedia), 10), Some(SourceClose))
            && z.tick == 11 && z.oracle == s.oracle
  {
    hide SwitchTarget;
    var c := Publish(s, MarkClosing(s.state, QtMultimedia));
    assert !UnbindRaisesNow(c);
    var u := Unbind(c);
    assert u.tick == 10 && Raises(u, Close(QtMultimedia));
  }

  /** From application start on Qt, whose close raises once: after the failed switch and its retry
      GStreamer is the engine, and Qt still runs. */
  lemma LeakRun()
    ensures var s := ConvergeStartup(Bootstrapped({Fault(Close(QtMultimedia), 10)}, QtMultimedia));
            var (y, q) := SwitchTo(s, GStreamer, true);
            var (z, r) := SwitchTo(y, GStreamer, true);
            && q == Raised(Fault(Close(QtMultimedia), 10), Some(SourceClose))
            && r.Done?
            && QtMultimedia in z.physical.leaked && z.physical.owned == {GStreamer} && z.physical.bound == Some(GStreamer)
  {
    hide SwitchTo, ConvergeStartup, Settled;
    var oracle := {Fault(Close(QtMultimedia), 10)};
    var s := ConvergeStartup(Bootstrapped(oracle, QtMultimedia));
    StartsUp(oracle, QtMultimedia);
    SourceCloseRaises(s, GStreamer, true);
    var y := SwitchTo(s, GStreamer, true).0;
    SwitchKeeps(s, GStreamer, true);
    assert Clear(y, 10);
    SwitchSucceeds(y, GStreamer, true);
    TwoEnginesRun(s, GStreamer, GStreamer, true);
  }

  // ---------------------------------------------------------------------------
  // When no close and no unbind raises
  // ---------------------------------------------------------------------------

  /** No close and no unbind raises, now or later. */
  ghost predicate Gentle(oracle: Oracle) {
    forall f :: f in oracle ==> !f.call.Close? && !f.call.UnbindRaises?
  }

  ghost predicate Untroubled(w: World) {
    Gentle(w.oracle) && !w.troubled
  }

  lemma MadeUntroubled(w: World, call: Call)
    requires Untroubled(w)
    ensures Untroubled(Made(w, call))
  {
  }

  lemma PreferenceUntroubled(w: World, e: EngineId)
    requires Untroubled(w)
    ensures Untroubled(SetPreference(w, e))
  {
    if w.persisted == e {
    } else if Raises(w, Persist) {
    } else {
    }
  }

  lemma UnbindUntroubled(w: World)
    requires Untroubled(w)
    ensures Untroubled(Unbind(w))
  {
    MadeUntroubled(w, UnbindRaises);
    if w.physical.bound.None? {
    } else if Raises(w, UnbindRaises) && Raises(w, UnbindKeeps) {
    } else {
    }
  }

  lemma CloseUntroubled(w: World, e: EngineId)
    requires Untroubled(w)
    ensures Untroubled(CloseProvider(w, e))
  {
    MadeUntroubled(w, Close(e));
  }

  lemma OpenUntroubled(w: World, e: EngineId)
    requires Untroubled(w)
    ensures Untroubled(OpenProvider(w, e))
  {
    MadeUntroubled(w, Open(e));
  }

  lemma CleanupUntroubled(w: World, e: EngineId, f: Fault)
    requires Untroubled(w)
    ensures Untroubled(Cleanup(w, e, f).0)
  {
    hide Unbind, CloseProvider, Untroubled;
    UnbindUntroubled(w);
    CloseUntroubled(Unbind(w), e);
  }

  lemma AttachUntroubled(o: World, e: EngineId)
    requires Untroubled(o)
    ensures Untroubled(AttachTarget(o, e).0)
  {
    hide Cleanup;
    var b := BindRouter(o, e);
    MadeUntroubled(o, Attach(e));
    CleanupUntroubled(b, e, FaultOf(o, Attach(e)));
    MadeUntroubled(b, Volume);
    CleanupUntroubled(Made(b, Volume), e, FaultOf(b, Volume));
  }

  lemma PublishUntroubled(w: World, s: EngineState)
    requires Untroubled(w)
    ensures Untroubled(Publish(w, s))
  {
  }

  lemma ActivationUntroubled(t: World, e: EngineId, from: Option<EngineId>, message: seq<Fault>)
    requires Untroubled(t)
    ensures Untroubled(ActivateAndBind(t, e, from, message).0)
  {
    hide AttachTarget, Verdict, Publish, OpenProvider, Untroubled;
    var i := Publish(t, MarkInitializing(t.state, e));
    PublishUntroubled(t, MarkInitializing(t.state, e));
    OpenUntroubled(i, e);
    AttachUntroubled(OpenProvider(i, e), e);
    var (v, a) := Activate(t, e);
    PublishUntroubled(v, Verdict(v.state, e, a, from, message));
  }

  lemma NotedUntroubled(w: World)
    requires Untroubled(w)
    ensures Untroubled(NoteFallback(w)) && Untroubled(BeginOperation(w)) && Untroubled(Asked(w)) && Untroubled(PlaybackConverged(w))
    ensures forall lease :: Untroubled(w.(lease := lease))
    ensures Untroubled(w.(shutdown := true)) && Untroubled(ReleaseLease(w))
  {
  }

  lemma FallbackUntroubled(w: World, from: EngineId, reason: seq<Fault>)
    requires Untroubled(w)
    ensures Untroubled(TryQtFallback(w, from, reason).0)
  {
    hide Made, NoteFallback, ActivateAndBind, Publish, Untroubled;
    var p := Made(w, Probe(QtMultimedia));
    MadeUntroubled(w, Probe(QtMultimedia));
    PublishUntroubled(p, MarkConvergenceFailed(p.state, reason + [FaultOf(w, Inactive(QtMultimedia))]));
    NotedUntroubled(p);
    ActivationUntroubled(NoteFallback(p), QtMultimedia, Some(from), reason);
    var a := ActivateAndBind(NoteFallback(p), QtMultimedia, Some(from), reason).0;
    PublishUntroubled(a, MarkConvergenceFailed(a.state, reason));
  }

  lemma TargetUntroubled(w: World, target: EngineId, wired: bool)
    requires Untroubled(w)
    ensures Untroubled(SwitchTarget(w, target, wired).0)
  {
    hide Made, ActivateAndBind, TryQtFallback, Untroubled;
    var (a, r) := ActivateAndBind(w, target, None, []);
    ActivationUntroubled(w, target, None, []);
    MadeUntroubled(a, Rehydrate);
    NotedUntroubled(Made(a, Rehydrate));
    if !r.Up? {
      FallbackUntroubled(a, target, [r.error]);
    }
  }

  lemma SourceUntroubled(w: World, active: EngineId, target: EngineId, wired: bool)
    requires Untroubled(w)
    ensures Untroubled(SwitchSource(w, active, target, wired).0)
  {
    hide Unbind, CloseProvider, SwitchTarget, Publish;
    var c := Publish(w, MarkClosing(w.state, active));
    PublishUntroubled(w, MarkClosing(w.state, active));
    UnbindUntroubled(c);
    CloseUntroubled(Unbind(c), active);
    TargetUntroubled(CloseProvider(Unbind(c), active), target, wired);
  }

  lemma LeasedUntroubled(h: World, target: EngineId, wired: bool)
    requires Untroubled(h)
    ensures Untroubled(SwitchLeased(h, target, wired).0)
  {
    hide SetPreference, Made, Publish, SwitchSource, SwitchTarget, Untroubled;
    var p := SetPreference(h, target);
    PreferenceUntroubled(h, target);
    var m := Publish(p, MarkSelected(p.state, target));
    PublishUntroubled(p, MarkSelected(p.state, target));
    var s := Made(m, Stop);
    MadeUntroubled(m, Stop);
    var r := SetPreference(s, h.state.selected);
    PreferenceUntroubled(s, h.state.selected);
    PublishUntroubled(r, MarkSelectionAborted(r.state, r.persisted));
    if h.state.active.Some? {
      SourceUntroubled(s, h.state.active.value, target, wired);
    } else {
      TargetUntroubled(s, target, wired);
    }
  }

  lemma ReadinessUntroubled(w: World)
    requires Untroubled(w)
    ensures Untroubled(Readiness(w).0)
  {
  }

  lemma PlanUntroubled(w: World, target: EngineId)
    requires Untroubled(w)
    ensures Untroubled(SelectionPlan(w, target).0)
  {
    hide Readiness, Made, Untroubled;
    MadeUntroubled(w, Probe(target));
    ReadinessUntroubled(Made(w, Probe(target)));
  }

  lemma ExecuteUntroubled(q: World, plan: Plan, target: EngineId, wired: bool)
    requires Untroubled(q)
    ensures Untroubled(Execute(q, plan, target, wired).0)
  {
    hide SetPreference, Readiness, SwitchLeased, Publish, ReleaseLease, Untroubled;
    var p := SetPreference(q, target);
    PreferenceUntroubled(q, target);
    PublishUntroubled(p, RestoreSelected(p.state, target));
    var b := Readiness(q).0;
    ReadinessUntroubled(q);
    NotedUntroubled(b);
    LeasedUntroubled(b.(lease := Held), target, wired);
    NotedUntroubled(SwitchLeased(b.(lease := Held), target, wired).0);
  }

  lemma SwitchUntroubled(w: World, target: EngineId, wired: bool)
    requires Untroubled(w)
    ensures Untroubled(SwitchTo(w, target, wired).0)
  {
    hide SelectionPlan, Execute, BeginOperation, Untroubled;
    NotedUntroubled(w);
    var (q, plan) := SelectionPlan(BeginOperation(w), target);
    PlanUntroubled(BeginOperation(w), target);
    ExecuteUntroubled(q, plan, target, wired);
  }

  lemma LossUntroubled(w: World, e: EngineId)
    requires Untroubled(w)
    ensures Untroubled(ConvergeRuntimeLoss(w, e))
  {
    hide Unbind, CloseProvider, TryQtFallback, Publish, PlaybackConverged, Untroubled;
    NotedUntroubled(w);
    var a := PlaybackConverged(w);
    var u := Unbind(a);
    UnbindUntroubled(a);
    PublishUntroubled(u, MarkBoundFailed(u.state, e, [FaultOf(a, UnbindRaises)]));
    var x := CloseProvider(u, e);
    CloseUntroubled(u, e);
    PublishUntroubled(x, MarkFailed(x.state, [FaultOf(u, Close(e))]));
    PublishUntroubled(x, MarkConvergenceFailed(x.state, [FaultOf(u, RuntimeLost(e))]));
    FallbackUntroubled(x, e, [FaultOf(u, RuntimeLost(e))]);
  }

  lemma StartupUntroubled(v: World)
    requires Untroubled(v)
    ensures Untroubled(ConvergeStartup(v))
  {
    hide Made, Publish, ActivateAndBind, TryQtFallback, BeginOperation, Untroubled;
    NotedUntroubled(v);
    var w := BeginOperation(v);
    var e := w.state.selected;
    var p := Made(w, Probe(e));
    MadeUntroubled(w, Probe(e));
    var f := FaultOf(w, Inactive(e));
    var m := Publish(p, MarkUnavailable(p.state, [f]));
    PublishUntroubled(p, MarkUnavailable(p.state, [f]));
    FallbackUntroubled(m, e, [f]);
    var a := ActivateAndBind(p, e, None, []).0;
    ActivationUntroubled(p, e, None, []);
    FallbackUntroubled(a, e, a.state.error);
  }

  lemma PerformUntroubled(w: World, op: Operation, wired: bool)
    requires Untroubled(w)
    ensures Untroubled(Perform(w, op, wired))
  {
    hide SwitchTo, ConvergeRuntimeLoss, BeginOperation, Untroubled;
    NotedUntroubled(w);
    match op
    case Switch(target) => SwitchUntroubled(w, target, wired);
    case RuntimeFailed(e, generation) => LossUntroubled(BeginOperation(w), e);
    case RehydrationEnds =>
    case ShutDown =>
  }

  lemma {:induction false} RunUntroubled(w: World, ops: seq<Operation>, wired: bool)
    requires Untroubled(w)
    ensures Untroubled(Operate(w, ops, wired))
    decreases |ops|
  {
    hide Perform, Untroubled;
    if ops != [] {
      PerformUntroubled(w, ops[0], wired);
      RunUntroubled(Perform(w, ops[0], wired), ops[1..], wired);
    }
  }

  /** From application start, if no close and no unbind ever raises: whatever else fails, the only
      engine running is the one the router is bound to. */
  lemma OnlyTheBoundEngineRuns(oracle: Oracle, persisted: EngineId, ops: seq<Operation>, wired: bool)
    requires Gentle(oracle)
    ensures var z := Operate(ConvergeStartup(Bootstrapped(oracle, persisted)), ops, wired);
            z.physical.leaked == {} && z.physical.owned == BoundSet(z.physical)
  {
    hide Operate, ConvergeStartup;
    var s := ConvergeStartup(Bootstrapped(oracle, persisted));
    StartupUntroubled(Bootstrapped(oracle, persisted));
    RunUntroubled(s, ops, wired);
    EngineLifecycleIsSafe(oracle, persisted, ops, wired);
  }
}
