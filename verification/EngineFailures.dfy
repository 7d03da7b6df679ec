/** What the engine lifecycle does not keep: when exactly, and in which runs. */
module EngineFailures {
  import opened Wrappers
  import opened TransportRouter
  import opened EngineWorld
  import opened EngineOperations
  import opened EngineSafety
  import opened EngineRuns

  // ---------------------------------------------------------------------------
  // A switch that is given up
  // ---------------------------------------------------------------------------

  lemma SwitchUnderLease(w: World, target: EngineId, wired: bool)
    requires Settled(w) && LeaseMoment(w, target).Some?
    ensures var h := LeaseMoment(w, target).value;
            && SwitchTo(w, target, wired) == (ReleaseLease(SwitchLeased(h, target, wired).0), SwitchLeased(h, target, wired).1)
            && OnlyAsked(BeginOperation(w), h.(lease := w.lease)) && Orderly(h)
  {
    hide SwitchLeased, ReleaseLease, SelectionPlan, Readiness, Settled, Orderly;
    BeginningIsSettled(w);
    var (q, plan) := SelectionPlan(BeginOperation(w), target);
    PlanKeeps(BeginOperation(w), target);
    ReadinessAsks(q);
    AskedTwice(BeginOperation(w), q, Readiness(q).0);
  }

  lemma BeginningIsSettled(w: World)
    requires Settled(w)
    ensures Settled(BeginOperation(w))
  {
  }

  lemma AskedTwice(w: World, q: World, b: World)
    requires Settled(w) && OnlyAsked(w, q) && OnlyAsked(q, b)
    ensures OnlyAsked(w, b.(lease := Held).(lease := w.lease))
  {
  }

  lemma PreferenceSaved(h: World, target: EngineId)
    requires !PreferenceRaises(h, target)
    ensures SetPreference(h, target).persisted == target
    ensures SetPreference(h, target).state == h.state && SetPreference(h, target).physical == h.physical
  {
    if h.persisted == target {
    } else if Raises(h, Persist) {
    } else {
    }
  }

  lemma MadeKeeps(s: World, call: Call)
    ensures Made(s, call).state == s.state && Made(s, call).physical == s.physical && Made(s, call).persisted == s.persisted
  {
  }

  lemma PreferenceRolledBack(s: World, e: EngineId)
    ensures var r := SetPreference(s, e);
            && r.state == s.state && r.physical == s.physical
            && (r.persisted == e <==> !PreferenceRaises(s, e))
  {
    hide Made;
    MadeKeeps(s, Persist);
    if s.persisted == e {
    } else if Raises(s, Persist) {
    } else {
    }
  }

  lemma AbortLeased(h: World, target: EngineId, wired: bool)
    requires Orderly(h) && !PreferenceRaises(h, target)
    requires var p := SetPreference(h, target); Raises(Publish(p, MarkSelected(p.state, target)), Stop)
    ensures var p := SetPreference(h, target);
            var m := Publish(p, MarkSelected(p.state, target));
            var s := Made(m, Stop);
            var (z, r) := SwitchLeased(h, target, wired);
            && r == Raised(FaultOf(m, Stop), None)
            && z.physical == h.physical
            && (z.state == h.state <==> h.state.error == [] && h.state.fallbackFrom.None? && !PreferenceRaises(s, h.state.selected))
  {
    hide SetPreference, PreferenceRaises;
    PreferenceSaved(h, target);
    var p := SetPreference(h, target);
    PreferenceRolledBack(Made(Publish(p, MarkSelected(p.state, target)), Stop), h.state.selected);
  }

  /** A controlled stop that raises costs the diagnostics of the state: a switch, or the retry of
      the preferred engine, that it ends leaves the state as it was exactly when there were none
      and the rollback of the preference did not raise either. */
  lemma AbortRestoresIff(w: World, target: EngineId, wired: bool)
    requires Settled(w)
    requires StopMoment(w, target).Some? && Raises(StopMoment(w, target).value, Stop)
    ensures var m := StopMoment(w, target).value;
            var (z, r) := SwitchTo(w, target, wired);
            && r == Raised(FaultOf(m, Stop), None)
            && z.physical == w.physical
            && (z.state == w.state <==>
                w.state.error == [] && w.state.fallbackFrom.None? && !PreferenceRaises(Made(m, Stop), w.state.selected))
  {
    hide SwitchTo, LeaseMoment, SwitchLeased, PreferenceRaises, SetPreference, Made, Publish;
    SwitchUnderLease(w, target, wired);
    var h := LeaseMoment(w, target).value;
    AbortLeased(h, target, wired);
    LeaseKeepsState(SwitchLeased(h, target, wired).0);
  }

  lemma LeaseKeepsState(z: World)
    ensures ReleaseLease(z).state == z.state && ReleaseLease(z).physical == z.physical
  {
  }

  // ---------------------------------------------------------------------------
  // A loss reported twice
  // ---------------------------------------------------------------------------

  /** What the second report of a loss is compared with. */
  predicate Frames(w: World, w': World) {
    w'.state == w.state && w'.generations == w.generations && w'.shutdown == w.shutdown && w.tick <= w'.tick
  }

  lemma UnbindFrames(w: World)
    ensures Frames(w, Unbind(w))
  {
    if w.physical.bound.None? {
    } else if Raises(w, UnbindRaises) && Raises(w, UnbindKeeps) {
    } else {
    }
  }

  lemma CloseFrames(w: World, e: EngineId)
    ensures Frames(w, CloseProvider(w, e))
  {
  }

  lemma StrandedStays(u: World, e: EngineId)
    requires !Raises(u, Close(e)) && e != QtMultimedia && Raises(CloseProvider(u, e), Probe(QtMultimedia))
    ensures Frames(u, CloseLost(u, e, false))
  {
    hide CloseProvider;
    CloseFrames(u, e);
  }

  lemma LostLater(u: World, e: EngineId, blocked: bool)
    requires MomentsSafe(u) && !u.closeRaised && u.physical.bound.None? && u.physical.owned <= {e}
    ensures CloseLost(u, e, blocked).tick >= u.tick
  {
    hide TryQtFallback;
    CloseSafe(u, e);
    CloseFrames(u, e);
    if !Raises(u, Close(e)) && e != QtMultimedia && !blocked {
      FallbackIsSafe(CloseProvider(u, e), e, [FaultOf(u, RuntimeLost(e))]);
    }
  }

  /** What a handled loss of `e` in the world `b` leaves: the engine active as before when the
      router clings to it or the fallback is stranded, and another one, or none, otherwise. */
  lemma LossLeaves(b: World, e: EngineId)
    requires Settled(b) && b.state.active == Some(e) && !b.closeRaised
    ensures var a := PlaybackConverged(b);
            var u := Unbind(a);
            var z := ConvergeRuntimeLoss(b, e);
            && z.tick > b.tick
            && if UnbindRaisesNow(a) && u.physical.bound.Some? then
                 z.state.active == Some(e) && z.generations == b.generations && z.shutdown == b.shutdown
               else if !Raises(u, Close(e)) && e != QtMultimedia && !Raises(b, FallbackBlocked)
                       && Raises(CloseProvider(u, e), Probe(QtMultimedia)) then
                 z.state.active == Some(e) && z.generations == b.generations && z.shutdown == b.shutdown
               else z.state.active != Some(e)
  {
    hide CloseLost, Unbind, CloseProvider, LossKept;
    var a := PlaybackConverged(b);
    var u := Unbind(a);
    UnbindFrames(a);
    UnbindSafe(a);
    LetGo(b, e);
    if !(UnbindRaisesNow(a) && u.physical.bound.Some?) {
      LostLater(u, e, Raises(b, FallbackBlocked));
      CloseLostKeeps(u, e, Raises(b, FallbackBlocked));
      if !Raises(u, Close(e)) && e != QtMultimedia && !Raises(b, FallbackBlocked) && Raises(CloseProvider(u, e), Probe(QtMultimedia)) {
        StrandedStays(u, e);
      } else {
        LossIsFaithful(u, CloseLost(u, e, Raises(b, FallbackBlocked)));
      }
    }
  }

  lemma LossIsFaithful(a: World, z: World)
    ensures LossKept(a, z, false) ==> z.state.active == z.physical.bound
  {
  }

  /** A loss that was handled is handled again exactly when the router clung to the engine or the
      fallback was stranded. */
  lemma HandledAgainIff(w: World, e: EngineId, generation: nat)
    requires Settled(w)
    ensures LossHandled(HandleRuntimeFailure(w, e, generation), e, generation) <==>
              Clings(w, e, generation) || Strands(w, e, generation)
    ensures LossHandled(w, e, generation) ==> HandleRuntimeFailure(w, e, generation).tick > w.tick
  {
    hide ConvergeRuntimeLoss, Unbind, CloseProvider, PlaybackConverged;
    if LossHandled(w, e, generation) {
      LossLeaves(BeginOperation(w), e);
    }
  }

  /** The same loss reported twice is handled once exactly then not: the second report changes
      nothing unless the router clung to the engine or the fallback was stranded. */
  lemma DuplicateLossIgnoredIff(w: World, e: EngineId, generation: nat)
    requires Settled(w)
    ensures var z := HandleRuntimeFailure(w, e, generation);
            HandleRuntimeFailure(z, e, generation) == z <==> !Clings(w, e, generation) && !Strands(w, e, generation)
  {
    hide ConvergeRuntimeLoss, Unbind, CloseProvider, PlaybackConverged, Settled, Clings, Strands;
    HandledAgainIff(w, e, generation);
    RuntimeFailureKeeps(w, e, generation);
    HandledAgainIff(HandleRuntimeFailure(w, e, generation), e, generation);
  }

  // ---------------------------------------------------------------------------
  // When nothing goes wrong
  // ---------------------------------------------------------------------------

  /** No fault within the next `n` moments. */
  ghost predicate Clear(w: World, n: nat) {
    forall f :: f in w.oracle ==> f.at < w.tick || w.tick + n <= f.at
  }

  lemma ClearMoment(w: World, n: nat, call: Call)
    requires Clear(w, n) && n > 0
    ensures !Raises(w, call)
  {
    assert FaultOf(w, call).at == w.tick;
  }

  /** The world after an activation from `t` that succeeded. */
  predicate UpWorld(t: World, e: EngineId, s: EngineState, z: World) {
    && z.state == s
    && z.physical == Physical(t.physical.owned + {e}, t.physical.leaked - {e}, Some(e))
    && z.tick == t.tick + 3 && z.oracle == t.oracle && z.persisted == t.persisted && z.lease == t.lease
    && z.shutdown == t.shutdown && z.generations == t.generations[e := Generation(t, e) + 1]
  }

  lemma ActivationUp(t: World, e: EngineId, from: Option<EngineId>, message: seq<Fault>)
    requires Clear(t, 3) && t.physical.bound.None?
    ensures var (z, a) := ActivateAndBind(t, e, from, message);
            && a.Up?
            && UpWorld(t, e, EngineState(t.state.selected, Some(e), Ready, None, if from.Some? then message else [], from), z)
  {
    hide Cleanup;
    var i := Publish(t, MarkInitializing(t.state, e));
    ClearMoment(i, 3, Open(e));
    var o := OpenProvider(i, e);
    ClearMoment(o, 2, Attach(e));
    var b := BindRouter(o, e);
    ClearMoment(b, 1, Volume);
  }

  /** An application whose engine starts. */
  lemma StartsUp(oracle: Oracle, e: EngineId)
    requires forall f :: f in oracle ==> f.at >= 4
    ensures var s := ConvergeStartup(Bootstrapped(oracle, e));
            && Settled(s) && Truthful(s)
            && s.state == EngineState(e, Some(e), Ready, None, [], None)
            && s.physical == Physical({e}, {}, Some(e))
            && s.tick == 4 && s.oracle == oracle && s.persisted == e && s.lease.Free? && !s.shutdown
            && s.generations == map[e := 1]
  {
    hide ActivateAndBind;
    var w := Bootstrapped(oracle, e);
    StartupKeeps(w);
    var b := BeginOperation(w);
    ClearMoment(b, 4, Probe(e));
    ClearMoment(b, 4, Inactive(e));
    ActivationUp(Made(b, Probe(e)), e, None, []);
  }

  lemma ClearLater(w: World, w': World, n: nat, k: nat)
    requires Clear(w, n) && k <= n && w'.oracle == w.oracle && w.tick <= w'.tick <= w.tick + k
    ensures Clear(w', n - k)
  {
  }

  lemma TargetSucceeds(t: World, target: EngineId, wired: bool)
    requires Clear(t, 3) && t.physical.bound.None?
    ensures SwitchTarget(t, target, wired).1.Done?
  {
    hide ActivateAndBind, Recover;
    ActivationUp(t, target, None, []);
  }

  lemma UnbindSucceeds(c: World)
    requires Clear(c, 1)
    ensures var u := Unbind(c);
            !UnbindRaisesNow(c) && u.physical.bound.None? && u.oracle == c.oracle && c.tick <= u.tick <= c.tick + 1
  {
    ClearMoment(c, 1, UnbindRaises);
    if c.physical.bound.None? {
    } else {
    }
  }

  lemma CloseSucceeds(u: World, e: EngineId)
    requires Clear(u, 1)
    ensures var x := CloseProvider(u, e);
            !Raises(u, Close(e)) && x.physical.bound == u.physical.bound && x.oracle == u.oracle && x.tick == u.tick + 1
  {
    ClearMoment(u, 1, Close(e));
  }

  lemma SourceSucceeds(s: World, active: EngineId, target: EngineId, wired: bool)
    requires Clear(s, 5)
    ensures SwitchSource(s, active, target, wired).1.Done?
  {
    hide Unbind, CloseProvider, SwitchTarget, Clear;
    var c := Publish(s, MarkClosing(s.state, active));
    ClearLater(s, c, 5, 0);
    ClearLater(s, c, 5, 4);
    UnbindSucceeds(c);
    var u := Unbind(c);
    ClearLater(c, u, 5, 1);
    ClearLater(u, u, 4, 3);
    CloseSucceeds(u, active);
    ClearLater(u, CloseProvider(u, active), 4, 1);
    TargetSucceeds(CloseProvider(u, active), target, wired);
  }

  lemma PersistSucceeds(h: World, e: EngineId)
    requires Clear(h, 1)
    ensures var p := SetPreference(h, e);
            && !PreferenceRaises(h, e) && p.state == h.state && p.physical == h.physical && p.oracle == h.oracle
            && h.tick <= p.tick <= h.tick + 1
  {
    ClearMoment(h, 1, Persist);
    if h.persisted == e {
    } else {
    }
  }

  lemma LeasedSucceeds(h: World, target: EngineId, wired: bool)
    requires Clear(h, 7) && (h.state.active.None? ==> h.physical.bound.None?)
    ensures SwitchLeased(h, target, wired).1.Done?
  {
    hide SetPreference, PreferenceRaises, SwitchSource, SwitchTarget, Clear;
    ClearLater(h, h, 7, 6);
    PersistSucceeds(h, target);
    var p := SetPreference(h, target);
    ClearLater(h, p, 7, 1);
    var m := Publish(p, MarkSelected(p.state, target));
    ClearLater(p, m, 6, 0);
    ClearMoment(m, 6, Stop);
    var s := Made(m, Stop);
    ClearLater(m, s, 6, 1);
    if h.state.active.Some? {
      SourceSucceeds(s, h.state.active.value, target, wired);
    } else {
      ClearLater(s, s, 5, 2);
      TargetSucceeds(s, target, wired);
    }
  }

  lemma ReadinessSucceeds(w: World)
    requires Clear(w, 1) && !w.lease.Held?
    ensures var (b, blocker) := Readiness(w);
            && blocker.None? && b.state == w.state && b.physical == w.physical && b.oracle == w.oracle && b.lease == w.lease
            && b.persisted == w.persisted && w.tick <= b.tick <= w.tick + 1
  {
    ClearMoment(w, 1, Pending);
  }

  lemma PlanSucceeds(w: World, target: EngineId)
    requires Clear(w, 2) && !w.lease.Held? && w.state.switchingTo.None?
    ensures var (q, plan) := SelectionPlan(w, target);
            && !plan.action.Unreachable? && plan.blocker.None?
            && q.state == w.state && q.physical == w.physical && q.oracle == w.oracle && q.lease == w.lease
            && q.persisted == w.persisted && w.tick <= q.tick <= w.tick + 2
  {
    hide Readiness, Clear;
    ClearMoment(w, 2, Probe(target));
    ClearMoment(w, 2, Inactive(target));
    var p := Made(w, Probe(target));
    ClearLater(w, p, 2, 1);
    ReadinessSucceeds(p);
  }

  lemma ExecuteSucceeds(q: World, plan: Plan, target: EngineId, wired: bool)
    requires Clear(q, 8) && !q.lease.Held? && !plan.action.Unreachable? && plan.blocker.None?
    requires q.state.active.None? ==> q.physical.bound.None?
    ensures Execute(q, plan, target, wired).1.Done?
  {
    hide Readiness, SwitchLeased, SetPreference, PreferenceRaises, Clear;
    ClearLater(q, q, 8, 7);
    PersistSucceeds(q, target);
    ReadinessSucceeds(q);
    var h := Readiness(q).0.(lease := Held);
    ClearLater(q, h, 8, 1);
    LeasedSucceeds(h, target, wired);
  }

  /** A switch in which nothing goes wrong for ten moments succeeds: all it waits for can fail. */
  lemma SwitchSucceeds(w: World, target: EngineId, wired: bool)
    requires Settled(w) && Clear(w, 10)
    ensures SwitchTo(w, target, wired).1.Done?
  {
    hide SelectionPlan, Execute, Clear;
    var b := BeginOperation(w);
    ClearLater(w, b, 10, 0);
    ClearLater(w, b, 10, 8);
    PlanSucceeds(b, target);
    var (q, plan) := SelectionPlan(b, target);
    ClearLater(b, q, 10, 2);
    ExecuteSucceeds(q, plan, target, wired);
  }

  // ---------------------------------------------------------------------------
  // The witnesses
  // ---------------------------------------------------------------------------

  /** GStreamer does not open and the Qt probe raises: the caller sees the second exception. */
  lemma ProbeReplacesFirst()
    ensures var oracle := {Fault(Open(GStreamer), 5), Fault(Probe(QtMultimedia), 6)};
            var (z, r) := SwitchTo(Bootstrapped(oracle, QtMultimedia), GStreamer, true);
            && r == Raised(Fault(Probe(QtMultimedia), 6), Some(TargetOpen))
            && z.first == Some(Fault(Open(GStreamer), 5))
  {
    var oracle := {Fault(Open(GStreamer), 5), Fault(Probe(QtMultimedia), 6)};
    var b := BeginOperation(Bootstrapped(oracle, QtMultimedia));
    var (q, plan) := SelectionPlan(b, GStreamer);
    assert q == b.(tick := 2) && plan == Plan(RuntimeSwitch, None);
    var h := q.(tick := 3, lease := Held);
    var p := SetPreference(h, GStreamer);
    assert p == h.(tick := 4, persisted := GStreamer);
    var m := Publish(p, MarkSelected(p.state, GStreamer));
    var s := Made(m, Stop);
    assert s == m.(tick := 5);
    assert Raises(s, Open(GStreamer));
  }

  /** The retry of the preferred engine, given up at the stop: Qt runs on as before, but that it
      does so in place of GStreamer, and why, is lost. */
  lemma AbortedRetryLosesDiagnostics()
    ensures var oracle := {Fault(Inactive(GStreamer), 0), Fault(Stop, 8)};
            var s := ConvergeStartup(Bootstrapped(oracle, GStreamer));
            var (z, r) := SwitchTo(s, GStreamer, true);
            && s.state == EngineState(GStreamer, Some(QtMultimedia), Ready, None, [Fault(Inactive(GStreamer), 0)], Some(GStreamer))
            && r == Raised(Fault(Stop, 8), None)
            && z.state == EngineState(GStreamer, Some(QtMultimedia), Ready, None, [], None)
  {
    hide ActivateAndBind, SwitchLeased;
    var oracle := {Fault(Inactive(GStreamer), 0), Fault(Stop, 8)};
    var w := Bootstrapped(oracle, GStreamer);
    StartupKeeps(w);
    var b := BeginOperation(w);
    var m := Publish(Made(b, Probe(GStreamer)), MarkUnavailable(b.state, [Fault(Inactive(GStreamer), 0)]));
    assert Raises(b, Inactive(GStreamer)) && !Raises(b, Probe(GStreamer));
    var p := NoteFallback(Made(m, Probe(QtMultimedia)));
    assert p.tick == 2 && Clear(p, 3);
    ActivationUp(p, QtMultimedia, Some(GStreamer), [Fault(Inactive(GStreamer), 0)]);
    var s := ConvergeStartup(w);
    assert s == ActivateAndBind(p, QtMultimedia, Some(GStreamer), [Fault(Inactive(GStreamer), 0)]).0;
    RetryStops(s, GStreamer);
  }

  lemma StopsUnchanged(h: World, target: EngineId)
    requires h.persisted == target == h.state.selected && h.state.switchingTo.None? && Fault(Stop, h.tick) in h.oracle
    ensures var (z, r) := SwitchLeased(h, target, true);
            r == Raised(Fault(Stop, h.tick), None) && z.state == h.state.(error := [], fallbackFrom := None)
  {
  }

  /** The retry of the preferred engine whose stop raises at the third moment. */
  lemma RetryStops(s: World, target: EngineId)
    requires Settled(s) && s.state.selected == target && s.state.active != Some(target) && s.lease.Free?
    requires Clear(s, 3) && Fault(Stop, s.tick + 3) in s.oracle
    ensures var (z, r) := SwitchTo(s, target, true);
            && r == Raised(Fault(Stop, s.tick + 3), None)
            && z.state == s.state.(error := [], fallbackFrom := None)
  {
    hide SwitchLeased;
    var b := BeginOperation(s);
    ClearMoment(b, 3, Probe(target));
    ClearMoment(b, 3, Inactive(target));
    var p := Made(b, Probe(target));
    ClearMoment(p, 2, Pending);
    var q := Asked(p);
    ClearMoment(q, 1, Pending);
    var h := Asked(q).(lease := Held);
    assert LeaseMoment(s, target) == Some(h);
    SwitchUnderLease(s, target, true);
    StopsUnchanged(h, target);
    LeaseKeepsState(SwitchLeased(h, target, true).0);
  }

  /** GStreamer is lost and the Qt probe of the fallback raises: the state stays READY on an engine
      that has been closed and unbound. */
  lemma LossStrands()
    ensures var s := ConvergeStartup(Bootstrapped({Fault(Probe(QtMultimedia), 7)}, GStreamer));
            var z := HandleRuntimeFailure(s, GStreamer, 1);
            && Settled(s) && Truthful(s) && Strands(s, GStreamer, 1)
            && z.state == EngineState(GStreamer, Some(GStreamer), Ready, None, [], None)
            && z.physical == Physical({}, {}, None)
  {
    var oracle := {Fault(Probe(QtMultimedia), 7)};
    StartsUp(oracle, GStreamer);
    LostAndStranded(ConvergeStartup(Bootstrapped(oracle, GStreamer)), GStreamer);
  }

  lemma LostAndStranded(s: World, e: EngineId)
    requires s.tick == 4 && s.oracle == {Fault(Probe(QtMultimedia), 7)} && e != QtMultimedia && !s.shutdown
    requires s.state.active == Some(e) && s.physical == Physical({e}, {}, Some(e)) && s.generations == map[e := 1]
    ensures Strands(s, e, 1)
    ensures var z := HandleRuntimeFailure(s, e, 1); z.state == s.state && z.physical == Physical({}, {}, None)
  {
    hide ActivateAndBind;
    var a := PlaybackConverged(BeginOperation(s));
    var u := Unbind(a);
    assert u.tick == 6 && u.physical == Physical({e}, {}, None);
    var x := CloseProvider(u, e);
    assert {e} - {e} == {};
    assert x.tick == 7 && x.physical == Physical({}, {}, None) && Raises(x, Probe(QtMultimedia));
  }
}
