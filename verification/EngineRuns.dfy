/** Whole runs of startup, switches, runtime losses and shutdown. */
module EngineRuns {
  import opened Wrappers
  import opened TransportRouter
  import opened EngineWorld
  import opened EngineOperations
  import opened EngineSafety

  predicate StaysTruthful(w: World, z: World) {
    Truthful(w) ==> Truthful(z)
  }

  // ---------------------------------------------------------------------------
  // Explicit switch
  // ---------------------------------------------------------------------------

  /** A world whose state is in transition: everything of Orderly but the selection. */
  predicate Selecting(s: World) {
    && MomentsSafe(s)
    && s.physical.owned == BoundSet(s.physical)
    && (s.physical.bound.Some? ==> s.state.active == s.physical.bound)
    && !s.state.lifecycle.Initializing? && !s.state.lifecycle.Closing?
  }

  lemma PreferenceKeeps(s: World, e: EngineId)
    requires Selecting(s)
    ensures var r := SetPreference(s, e);
            && Selecting(r) && r.physical == s.physical && r.state == s.state && r.shutdown == s.shutdown
            && r.everHonest == s.everHonest && (s.first.Some? ==> r.first == s.first)
            && (!PreferenceRaises(s, e) ==> r.persisted == e && r.first == s.first && r.closeRaised == s.closeRaised)
            && (PreferenceRaises(s, e) ==> r.persisted == s.persisted && (s.first.None? ==> r.first == Some(FaultOf(s, Persist))))
            && r.lease == s.lease
  {
    if s.persisted == e {
    } else if Raises(s, Persist) {
    } else {
    }
  }

  lemma AbortKeeps(s: World, selected: EngineId)
    requires Selecting(s)
    ensures var z := AbortSelection(s, selected);
            && Orderly(z)
            && z.shutdown == s.shutdown
            && (s.first.Some? ==> z.first == s.first)
            && StaysTruthful(s, z)
  {
    PreferenceKeeps(s, selected);
  }

  /** What a transaction that may have changed everything leaves. */
  predicate LeasedEnds(h: World, z: World, target: EngineId, r: SwitchResult, wired: bool) {
    && Orderly(z)
    && z.shutdown == h.shutdown
    && StaysTruthful(h, z)
    && RaisesFirst(z, r)
    && !r.Refused?
    && (r.Done? ==> Succeeds(z, target))
    && StageTells(h.physical.bound, z, target, r, wired)
  }

  lemma StoppedKeeps(s: World, active: Option<EngineId>, target: EngineId, wired: bool)
    requires MomentsSafe(s) && !s.closeRaised && s.first.None?
    requires s.physical.owned == BoundSet(s.physical)
    requires s.physical.bound.Some? ==> active == s.physical.bound
    requires s.state.selected == target && s.persisted == target
    ensures var (z, r) := if active.Some? then SwitchSource(s, active.value, target, wired) else SwitchTarget(s, target, wired);
            SwitchEnds(s.physical.bound, s, z, target, r, wired)
  {
    if active.Some? {
      SwitchSourceSafe(s, active.value, target, wired);
    } else {
      SwitchTargetSafe(s.physical.bound, s, target, wired);
    }
  }

  lemma PersistedKeeps(p: World, was: EngineState, target: EngineId, wired: bool)
    requires Selecting(p) && p.persisted == target && p.first.None? && !p.closeRaised
    requires was == p.state
    ensures var (z, r) := SwitchPersisted(p, was, target, wired); LeasedEnds(p, z, target, r, wired)
  {
    var s := Made(Publish(p, MarkSelected(p.state, target)), Stop);
    if s.first.Some? {
      AbortKeeps(s, was.selected);
    } else {
      StoppedKeeps(s, was.active, target, wired);
    }
  }

  lemma LeasedKeeps(h: World, target: EngineId, wired: bool)
    requires Orderly(h) && h.first.None? && !h.closeRaised
    ensures var (z, r) := SwitchLeased(h, target, wired); LeasedEnds(h, z, target, r, wired)
  {
    PreferenceKeeps(h, target);
    if !PreferenceRaises(h, target) {
      PersistedKeeps(SetPreference(h, target), h.state, target, wired);
    }
  }

  /** What an explicit switch promises, whatever fails. */
  predicate SwitchKept(w: World, z: World, target: EngineId, r: SwitchResult, wired: bool) {
    && Settled(z)
    && StaysTruthful(w, z)
    && RaisesFirst(z, r)
    && (r.Done? ==> Succeeds(z, target))
    && (r.Refused? ==> z.state == w.state && z.physical == w.physical && z.persisted == w.persisted && z.lease == w.lease)
    && z.shutdown == w.shutdown
    && StageTells(w.physical.bound, z, target, r, wired)
  }

  lemma LeaseReleased(h: World, z: World, target: EngineId, r: SwitchResult, wired: bool)
    requires LeasedEnds(h, z, target, r, wired)
    ensures SwitchKept(h, ReleaseLease(z), target, r, wired)
  {
  }

  lemma AskedIsKept(w: World, b: World, z: World, target: EngineId, r: SwitchResult, wired: bool)
    requires SwitchKept(b, z, target, r, wired) && !r.Refused?
    requires b.physical == w.physical && b.state == w.state && b.shutdown == w.shutdown && b.everHonest == w.everHonest
    ensures SwitchKept(w, z, target, r, wired)
  {
  }

  lemma RefusedIsKept(w: World, z: World, target: EngineId, blocker: Blocker, wired: bool)
    requires OnlyAsked(w, z)
    ensures SwitchKept(w, z, target, Refused(blocker), wired)
  {
  }

  lemma ReadinessAsks(w: World)
    requires Settled(w)
    ensures OnlyAsked(w, Readiness(w).0) && Readiness(w).0.first == w.first
    ensures Orderly(Readiness(w).0.(lease := Held))
  {
  }

  lemma TransactionKeeps(w: World, target: EngineId, wired: bool)
    requires Settled(w) && w.first.None? && !w.closeRaised
    ensures var (z, r) := SwitchTransaction(w, target, wired); SwitchKept(w, z, target, r, wired)
  {
    hide SwitchLeased, SwitchKept, LeasedEnds, Settled, Orderly, ReleaseLease;
    var (b, blocker) := Readiness(w);
    ReadinessAsks(w);
    if blocker.Some? {
      RefusedIsKept(w, b, target, blocker.value, wired);
    } else {
      var h := b.(lease := Held);
      LeasedKeeps(h, target, wired);
      var (z, r) := SwitchLeased(h, target, wired);
      LeaseReleased(h, z, target, r, wired);
      LeasedNeverRefuses(h, z, target, r, wired);
      AskedIsKept(w, h, ReleaseLease(z), target, r, wired);
    }
  }

  lemma LeasedNeverRefuses(h: World, z: World, target: EngineId, r: SwitchResult, wired: bool)
    requires LeasedEnds(h, z, target, r, wired)
    ensures !r.Refused?
  {
  }

  /** Planning asks and changes nothing. */
  predicate OnlyAsked(w: World, q: World) {
    && Settled(q)
    && q.state == w.state && q.physical == w.physical && q.persisted == w.persisted && q.lease == w.lease
    && q.shutdown == w.shutdown && q.everHonest == w.everHonest && q.closeRaised == w.closeRaised
  }

  lemma ProbedPlanKeeps(w: World, target: EngineId)
    requires Settled(w)
    ensures var (q, plan) := ProbedPlan(w, target);
            && OnlyAsked(w, q)
            && (plan.action.Unreachable? || plan.action.RetryPreferred? || plan.action.RuntimeSwitch?)
            && (!plan.action.Unreachable? ==> q.first == w.first)
  {
  }

  lemma PlanKeeps(w: World, target: EngineId)
    requires Settled(w)
    ensures var (q, plan) := SelectionPlan(w, target);
            && OnlyAsked(w, q)
            && (plan.action.Noop? || plan.action.PreferenceOnly? <==> ActiveReady(w.state, target))
            && (plan.action.Noop? ==> w.state.selected == target)
            && (!plan.action.Unreachable? ==> q.first == w.first)
  {
    ProbedPlanKeeps(w, target);
  }

  lemma ExecuteKeeps(q: World, plan: Plan, target: EngineId, wired: bool)
    requires Settled(q) && !q.closeRaised && (plan.action.Unreachable? || q.first.None?)
    requires plan.action.Noop? || plan.action.PreferenceOnly? ==> ActiveReady(q.state, target)
    requires plan.action.Noop? ==> q.state.selected == target
    ensures var (z, r) := Execute(q, plan, target, wired); SwitchKept(q, z, target, r, wired)
  {
    hide SwitchTransaction, SetPreference;
    if plan.action.Noop? {
    } else if plan.action.PreferenceOnly? {
      PreferenceKeeps(q, target);
    } else if plan.action.Unreachable? || plan.blocker.Some? {
    } else {
      TransactionKeeps(q, target, wired);
    }
  }

  lemma SwitchKeeps(w: World, target: EngineId, wired: bool)
    requires Settled(w)
    ensures var (z, r) := SwitchTo(w, target, wired); SwitchKept(w, z, target, r, wired)
  {
    hide SelectionPlan, Execute;
    PlanKeeps(BeginOperation(w), target);
    var (q, plan) := SelectionPlan(BeginOperation(w), target);
    ExecuteKeeps(q, plan, target, wired);
  }

  lemma ReleaseIff(w: World, e: EngineId, f: Fault)
    ensures ProvenReleased(Cleanup(w, e, f).1) <==> LetsGo(w, e)
  {
  }

  lemma ActivationReleasedIff(t: World, e: EngineId)
    ensures ProvenReleased(ActivateAndBind(t, e, None, []).1) <==> FailsReleased(t, e)
  {
    hide Cleanup, LetsGo;
    var o := OpenProvider(Publish(t, MarkInitializing(t.state, e)), e);
    var b := BindRouter(o, e);
    ReleaseIff(b, e, FaultOf(o, Attach(e)));
    ReleaseIff(Made(b, Volume), e, FaultOf(b, Volume));
  }

  lemma UnbindKeepsShutdown(w: World)
    ensures Unbind(w).shutdown == w.shutdown
  {
  }

  lemma CloseKeepsShutdown(w: World, e: EngineId)
    ensures CloseProvider(w, e).shutdown == w.shutdown
  {
  }

  lemma CleanupKeepsShutdown(w: World, e: EngineId, f: Fault)
    ensures Cleanup(w, e, f).0.shutdown == w.shutdown
  {
    hide Unbind, CloseProvider;
    UnbindKeepsShutdown(w);
    CloseKeepsShutdown(Unbind(w), e);
  }

  lemma AttachKeepsShutdown(o: World, e: EngineId)
    ensures AttachTarget(o, e).0.shutdown == o.shutdown
  {
    hide Cleanup;
    var b := BindRouter(o, e);
    CleanupKeepsShutdown(b, e, FaultOf(o, Attach(e)));
    CleanupKeepsShutdown(Made(b, Volume), e, FaultOf(b, Volume));
  }

  lemma ActivationKeepsShutdown(t: World, e: EngineId)
    ensures ActivateAndBind(t, e, None, []).0.shutdown == t.shutdown
  {
    hide AttachTarget, Verdict;
    AttachKeepsShutdown(OpenProvider(Publish(t, MarkInitializing(t.state, e)), e), e);
  }

  predicate ReplacesAt(t: World, target: EngineId, wired: bool) {
    && wired && !t.shutdown && target != QtMultimedia && FailsReleased(t, target)
    && Raises(ActivateAndBind(t, target, None, []).0, Probe(QtMultimedia))
  }

  /** The error of a switch comes from the Qt probe of its recovery. */
  predicate FromProbe(r: SwitchResult) {
    r.Raised? && r.error.call == Probe(QtMultimedia)
  }

  lemma TargetFromProbe(t: World, target: EngineId, wired: bool)
    ensures FromProbe(SwitchTarget(t, target, wired).1) <==> ReplacesAt(t, target, wired)
  {
    hide ActivateAndBind, FailsReleased;
    ActivationReleasedIff(t, target);
    ActivationKeepsShutdown(t, target);
    ActivationFault(t, target, None, []);
    var (a, r) := ActivateAndBind(t, target, None, []);
    if !r.Up? && ProvenReleased(r) && wired {
      RecoveryFromProbe(a, target, [r.error]);
    }
  }

  lemma RecoveryFromProbe(w: World, target: EngineId, reason: seq<Fault>)
    ensures var k := Recover(w, target, reason).1;
            && (k.ProbeRaised? <==> !w.shutdown && target != QtMultimedia && Raises(w, Probe(QtMultimedia)))
            && (k.ProbeRaised? ==> k.error.call == Probe(QtMultimedia))
  {
    hide ActivateAndBind;
  }

  lemma SourceFromProbe(s: World, active: EngineId, target: EngineId, wired: bool)
    ensures var t := SourceGone(s, active);
            FromProbe(SwitchSource(s, active, target, wired).1) <==> t.Some? && ReplacesAt(t.value, target, wired)
  {
    hide SwitchTarget, ReplacesAt;
    var u := Unbind(Publish(s, MarkClosing(s.state, active)));
    TargetFromProbe(CloseProvider(u, active), target, wired);
  }

  lemma LeasedFromProbe(h: World, target: EngineId, wired: bool)
    ensures var t := LeasedMoment(h, target);
            FromProbe(SwitchLeased(h, target, wired).1) <==> t.Some? && ReplacesAt(t.value, target, wired)
  {
    hide SwitchTarget, SwitchSource, ReplacesAt, SourceGone, SetPreference;
    var p := SetPreference(h, target);
    var s := Made(Publish(p, MarkSelected(p.state, target)), Stop);
    TargetFromProbe(s, target, wired);
    if h.state.active.Some? {
      SourceFromProbe(s, h.state.active.value, target, wired);
    }
  }

  lemma SwitchFromProbe(w: World, target: EngineId, wired: bool)
    ensures var t := TargetMoment(w, target);
            FromProbe(SwitchTo(w, target, wired).1) <==> t.Some? && ReplacesAt(t.value, target, wired)
  {
    hide SwitchLeased, LeasedMoment, ReplacesAt, SetPreference;
    var h := LeaseMoment(w, target);
    if h.Some? {
      LeasedFromProbe(h.value, target, wired);
    }
  }

  lemma LeasedMomentKeepsShutdown(h: World, target: EngineId)
    ensures var t := LeasedMoment(h, target); t.Some? ==> t.value.shutdown == h.shutdown
  {
    hide Unbind, CloseProvider, SetPreference;
    PreferenceKeepsShutdown(h, target);
    var p := SetPreference(h, target);
    var s := Made(Publish(p, MarkSelected(p.state, target)), Stop);
    if h.state.active.Some? {
      var c := Publish(s, MarkClosing(s.state, h.state.active.value));
      UnbindKeepsShutdown(c);
      CloseKeepsShutdown(Unbind(c), h.state.active.value);
    }
  }

  lemma PreferenceKeepsShutdown(h: World, target: EngineId)
    ensures SetPreference(h, target).shutdown == h.shutdown
  {
    if h.persisted == target {
    } else if Raises(h, Persist) {
    } else {
    }
  }

  lemma ReadinessKeepsShutdown(w: World)
    ensures Readiness(w).0.shutdown == w.shutdown
  {
  }

  lemma PlanKeepsShutdown(w: World, target: EngineId)
    ensures var q := SelectionPlan(BeginOperation(w), target).0; q.shutdown == Readiness(q).0.shutdown == w.shutdown
  {
    hide Readiness;
    var b := BeginOperation(w);
    ReadinessKeepsShutdown(Made(b, Probe(target)));
    ReadinessKeepsShutdown(SelectionPlan(b, target).0);
  }

  lemma MomentKeepsShutdown(w: World, target: EngineId)
    ensures var t := TargetMoment(w, target); t.Some? ==> t.value.shutdown == w.shutdown
  {
    hide LeasedMoment, SelectionPlan, Readiness;
    PlanKeepsShutdown(w, target);
    var h := LeaseMoment(w, target);
    if h.Some? {
      LeasedMomentKeepsShutdown(h.value, target);
    }
  }

  /** A switch raises the first exception of its operation, unless the target failed and was
      released and the Qt probe of the recovery raised: that probe's exception then replaces it. */
  lemma RaisesFirstIff(w: World, target: EngineId, wired: bool)
    requires Settled(w)
    ensures var (z, r) := SwitchTo(w, target, wired);
            r.Raised? && z.first != Some(r.error) <==> ProbeReplaces(w, target, wired)
  {
    hide SwitchTo, TargetMoment, FailsReleased, ActivateAndBind;
    SwitchKeeps(w, target, wired);
    SwitchFromProbe(w, target, wired);
    MomentKeepsShutdown(w, target);
  }

  // ---------------------------------------------------------------------------
  // Runtime loss
  // ---------------------------------------------------------------------------

  predicate LossKept(w: World, z: World, strands: bool) {
    && Orderly(z)
    && z.shutdown == w.shutdown && z.lease == w.lease
    && PublishesHonestly(w, z)
    && (if strands then z.physical.bound.None? && z.state == w.state else Faithful(z))
  }

  lemma CloseLostKeeps(u: World, e: EngineId, blocked: bool)
    requires MomentsSafe(u) && !u.closeRaised && u.physical.bound.None? && u.physical.owned <= {e}
    requires u.state.selected == u.persisted && AtRest(u.state)
    ensures LossKept(u, CloseLost(u, e, blocked),
                     !Raises(u, Close(e)) && e != QtMultimedia && !blocked && Raises(CloseProvider(u, e), Probe(QtMultimedia)))
    ensures CloseLost(u, e, blocked).physical.bound != Some(e)
  {
    CloseSafe(u, e);
    var x := CloseProvider(u, e);
    if Raises(u, Close(e)) {
    } else if e == QtMultimedia || blocked {
    } else {
      FallbackIsSafe(x, e, [FaultOf(u, RuntimeLost(e))]);
    }
  }

  lemma LetGo(b: World, e: EngineId)
    requires Settled(b) && b.state.active == Some(e) && !b.closeRaised
    ensures var u := Unbind(PlaybackConverged(b));
            && MomentsSafe(u) && !u.closeRaised && u.physical.owned <= {e}
            && u.state.selected == u.persisted && AtRest(u.state)
  {
    var a := PlaybackConverged(b);
    UnbindSafe(a);
    if a.physical.bound.None? {
    } else if Raises(a, UnbindRaises) && Raises(a, UnbindKeeps) {
    } else {
    }
  }

  lemma UnbindKeepsRest(a: World)
    requires MomentsSafe(a)
    ensures var u := Unbind(a);
            && u.state == a.state && u.lease == a.lease && u.shutdown == a.shutdown && u.persisted == a.persisted
            && u.everHonest == a.everHonest && u.physical.owned == a.physical.owned
            && (u.physical.bound.Some? ==> UnbindRaisesNow(a) && u.physical == a.physical)
  {
    if a.physical.bound.None? {
    } else if Raises(a, UnbindRaises) && Raises(a, UnbindKeeps) {
    } else {
    }
  }

  lemma LossKeeps(w: World, e: EngineId)
    requires Settled(w) && w.state.active == Some(e) && !w.closeRaised
    ensures var a := PlaybackConverged(w);
            var u := Unbind(a);
            var x := CloseProvider(u, e);
            LossKept(a, ConvergeRuntimeLoss(w, e),
                     && !(UnbindRaisesNow(a) && u.physical.bound.Some?)
                     && !Raises(u, Close(e)) && e != QtMultimedia && !Raises(w, FallbackBlocked)
                     && Raises(x, Probe(QtMultimedia)))
  {
    hide CloseLost, CloseProvider, Unbind;
    var a := PlaybackConverged(w);
    var u := Unbind(a);
    LetGo(w, e);
    UnbindKeepsRest(a);
    if UnbindRaisesNow(a) && u.physical.bound.Some? {
    } else {
      CloseLostKeeps(u, e, Raises(w, FallbackBlocked));
    }
  }

  /** A runtime loss leaves things settled, and the state truthful exactly when the probe of
      the fallback engine does not raise out of the convergence. */
  lemma RuntimeFailureKeeps(w: World, e: EngineId, generation: nat)
    requires Settled(w)
    ensures Settled(HandleRuntimeFailure(w, e, generation))
    ensures Truthful(w) ==> (Truthful(HandleRuntimeFailure(w, e, generation)) <==> !Strands(w, e, generation))
  {
    if LossHandled(w, e, generation) {
      LossKeeps(BeginOperation(w), e);
    }
  }

  // ---------------------------------------------------------------------------
  // Startup and runs
  // ---------------------------------------------------------------------------

  predicate Fresh(w: World) {
    && MomentsSafe(w)
    && AllReleased(w)
    && w.state.active.None? && AtRest(w.state) && !w.state.lifecycle.Ready?
    && w.state.selected == w.persisted
    && w.everHonest
    && w.lease.Free?
  }

  lemma StartupProbedKeeps(p: World, e: EngineId)
    requires Fresh(p) && e == p.state.selected && !p.closeRaised
    ensures var (a, r) := ActivateAndBind(p, e, None, []);
            var z := if e != QtMultimedia && ProvenReleased(r) then TryQtFallback(a, e, a.state.error).0 else a;
            Settled(z) && Truthful(z)
  {
    ActivateAndBindSafe(p, e, None, []);
    var (a, r) := ActivateAndBind(p, e, None, []);
    if e != QtMultimedia && ProvenReleased(r) {
      FallbackIsSafe(a, e, a.state.error);
    }
  }

  lemma StartupKeeps(w: World)
    requires Fresh(w)
    ensures Settled(ConvergeStartup(w)) && Truthful(ConvergeStartup(w))
  {
    var b := BeginOperation(w);
    var e := w.state.selected;
    var p := Made(b, Probe(e));
    if w.shutdown {
    } else if Raises(b, Probe(e)) {
    } else if Raises(b, Inactive(e)) {
      var f := FaultOf(b, Inactive(e));
      var m := Publish(p, MarkUnavailable(p.state, [f]));
      if e != QtMultimedia {
        FallbackIsSafe(m, e, [f]);
      }
    } else {
      StartupProbedKeeps(p, e);
    }
  }

  lemma PerformKeeps(w: World, op: Operation, wired: bool)
    requires Settled(w)
    ensures Settled(Perform(w, op, wired))
    ensures Truthful(w) && !(op.RuntimeFailed? && Strands(w, op.engine, op.generation)) ==> Truthful(Perform(w, op, wired))
  {
    match op
    case Switch(target) => SwitchKeeps(w, target, wired);
    case RuntimeFailed(e, generation) => RuntimeFailureKeeps(w, e, generation);
    case RehydrationEnds =>
    case ShutDown =>
  }

  /** Every run, whatever fails: one tracked engine at a time, no closed engine bound, every
      automatic fallback from proven release, and no operation left half-way. */
  lemma {:induction false} RunKeepsSettled(w: World, ops: seq<Operation>, wired: bool)
    requires Settled(w)
    ensures Settled(Operate(w, ops, wired))
    ensures Truthful(w) && NeverStrands(w, ops, wired) ==> Truthful(Operate(w, ops, wired))
    decreases |ops|
  {
    if ops != [] {
      PerformKeeps(w, ops[0], wired);
      RunKeepsSettled(Perform(w, ops[0], wired), ops[1..], wired);
    }
  }

  /** From application start: the state always tells the engine the router is bound to, and
      while no close and no unbind has raised, that engine is the only one running. */
  lemma EngineLifecycleIsSafe(oracle: Oracle, persisted: EngineId, ops: seq<Operation>, wired: bool)
    ensures var s := ConvergeStartup(Bootstrapped(oracle, persisted));
            var z := Operate(s, ops, wired);
            && z.everSafe && z.everReleased && AtMostOne(z.physical.owned)
            && z.state.selected == z.persisted && AtRest(z.state)
            && (NeverStrands(s, ops, wired) ==> z.everHonest && z.state.active == z.physical.bound)
            && (!z.troubled ==> z.physical.leaked == {} && z.physical.owned == BoundSet(z.physical))
  {
    StartupKeeps(Bootstrapped(oracle, persisted));
    RunKeepsSettled(ConvergeStartup(Bootstrapped(oracle, persisted)), ops, wired);
  }
}
