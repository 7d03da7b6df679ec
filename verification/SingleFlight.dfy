/** The single-flight protocol of the DAC qualification service: concurrent callers with the
    same key share one physical probe.  Every step below is one lock-protected section, or
    one event between two of them, of one caller; any interleaving of steps may happen. */
module SingleFlight {
  import opened Wrappers

  type Key = string
  type Caller = nat

  datatype Error = ProbeRaised(code: nat) | NoTerminalOutcome | WaitTimedOut

  datatype Outcome = Returned(value: nat) | Raised(error: Error)

  /** How a probe call ends; `GaveNone` is a probe that returned no result object. */
  datatype ProbeEnd = Gave(value: nat) | GaveNone | Threw(code: nat)

  /** A shared flight object.  `leader` names the caller that created it. */
  datatype Flight = Flight(key: Key, leader: Caller, eventSet: bool,
                           result: Option<nat>, error: Option<Error>, waiters: int)

  datatype Ending = AsLeader | AsFollower | AsTimeout

  datatype Position =
    | Probing(key: Key, flight: nat)
    | Publishing(key: Key, flight: nat, end: ProbeEnd)
    | Waiting(key: Key, flight: nat)
    | Expired(key: Key, flight: nat)
    | Woken(key: Key, flight: nat)
    | Finished(key: Key, flight: nat, ending: Ending, outcome: Outcome)

  /** `heap` holds every flight object ever created, `flights` the registered ones. */
  datatype State = State(flights: map<Key, nat>, heap: seq<Flight>, callers: map<Caller, Position>)

  const START := State(map[], [], map[])

  datatype Step =
    | Enter(caller: Caller, key: Key)
    | ProbeEnds(caller: Caller, end: ProbeEnd)
    | Publish(caller: Caller)
    | WaitSucceeds(caller: Caller)
    | WaitExpires(caller: Caller)
    | ExpiredExit(caller: Caller)
    | WokenExit(caller: Caller)

  // ---------------------------------------------------------------------------
  // The steps
  // ---------------------------------------------------------------------------

  predicate InCall(s: State, t: Caller) {
    t in s.callers && !s.callers[t].Finished?
  }

  predicate Enabled(s: State, step: Step) {
    var t := step.caller;
    match step
    case Enter(_, _) => !InCall(s, t)
    case ProbeEnds(_, _) => t in s.callers && s.callers[t].Probing?
    case Publish(_) => t in s.callers && s.callers[t].Publishing? && s.callers[t].flight < |s.heap|
    case WaitSucceeds(_) =>
      t in s.callers && s.callers[t].Waiting? && s.callers[t].flight < |s.heap| && s.heap[s.callers[t].flight].eventSet
    case WaitExpires(_) => t in s.callers && s.callers[t].Waiting?
    case ExpiredExit(_) => t in s.callers && s.callers[t].Expired? && s.callers[t].flight < |s.heap|
    case WokenExit(_) => t in s.callers && s.callers[t].Woken? && s.callers[t].flight < |s.heap|
  }

  /** What the flight tells a caller that reads its two fields: the error first. */
  function Told(f: Flight): Outcome {
    if f.error.Some? then Raised(f.error.value)
    else if f.result.None? then Raised(NoTerminalOutcome)
    else Returned(f.result.value)
  }

  function Ended(f: Flight, end: ProbeEnd): Flight {
    match end
    case Gave(v) => f.(result := Some(v), eventSet := true)
    case GaveNone => f.(error := Some(NoTerminalOutcome), eventSet := true)
    case Threw(code) => f.(error := Some(ProbeRaised(code)), eventSet := true)
  }

  function EndOutcome(end: ProbeEnd): Outcome {
    match end
    case Gave(v) => Returned(v)
    case GaveNone => Raised(NoTerminalOutcome)
    case Threw(code) => Raised(ProbeRaised(code))
  }

  function PopIfUnwaited(s: State, key: Key, f: Flight): State {
    if f.waiters == 0 then s.(flights := s.flights - {key}) else s
  }

  function Move(s: State, t: Caller, p: Position): State {
    s.(callers := s.callers[t := p])
  }

  function Next(s: State, step: Step): State
    requires Enabled(s, step)
  {
    var t := step.caller;
    match step
    case Enter(_, key) =>
      if key in s.flights && s.flights[key] < |s.heap| then
        var f := s.flights[key];
        Move(s.(heap := s.heap[f := s.heap[f].(waiters := s.heap[f].waiters + 1)]), t, Waiting(key, f))
      else
        var f := |s.heap|;
        Move(s.(heap := s.heap + [Flight(key, t, false, None, None, 0)], flights := s.flights[key := f]),
             t, Probing(key, f))
    case ProbeEnds(_, end) =>
      Move(s, t, Publishing(s.callers[t].key, s.callers[t].flight, end))
    case Publish(_) =>
      var Publishing(key, f, end) := s.callers[t];
      var ended := Ended(s.heap[f], end);
      Move(PopIfUnwaited(s.(heap := s.heap[f := ended]), key, ended), t, Finished(key, f, AsLeader, EndOutcome(end)))
    case WaitSucceeds(_) =>
      Move(s, t, Woken(s.callers[t].key, s.callers[t].flight))
    case WaitExpires(_) =>
      Move(s, t, Expired(s.callers[t].key, s.callers[t].flight))
    case ExpiredExit(_) =>
      var Expired(key, f) := s.callers[t];
      Move(s.(heap := s.heap[f := s.heap[f].(waiters := s.heap[f].waiters - 1)]),
           t, Finished(key, f, AsTimeout, Raised(WaitTimedOut)))
    case WokenExit(_) =>
      var Woken(key, f) := s.callers[t];
      var left := s.heap[f].(waiters := s.heap[f].waiters - 1);
      Move(PopIfUnwaited(s.(heap := s.heap[f := left]), key, left), t, Finished(key, f, AsFollower, Told(left)))
  }

  // ---------------------------------------------------------------------------
  // The invariant
  // ---------------------------------------------------------------------------

  predicate Leads(p: Position, f: nat) {
    (p.Probing? || p.Publishing?) && p.flight == f
  }

  predicate Follows(p: Position, f: nat) {
    (p.Waiting? || p.Expired? || p.Woken?) && p.flight == f
  }

  function Followers(s: State, f: nat): set<Caller> {
    set t | t in s.callers && Follows(s.callers[t], f)
  }

  predicate Registered(s: State, f: nat)
    requires f < |s.heap|
  {
    s.heap[f].key in s.flights && s.flights[s.heap[f].key] == f
  }

  /** A flight is live while unfinished or still held by a follower. */
  predicate Live(s: State, f: nat)
    requires f < |s.heap|
  {
    !s.heap[f].eventSet || Followers(s, f) != {}
  }

  /** Exactly one of result and error is set once the event is, and neither before; a wait
      that expires is nobody else's outcome. */
  predicate Terminal(f: Flight) {
    && (if f.eventSet then f.result.Some? != f.error.Some? else f.result.None? && f.error.None?)
    && f.error != Some(WaitTimedOut)
  }

  /** A live flight is the registered one; `waiters` counts exactly the followers inside; an
      unfinished flight is led by its leader. */
  predicate FlightSound(s: State, f: nat)
    requires f < |s.heap|
  {
    && (Live(s, f) ==> Registered(s, f))
    && s.heap[f].waiters == |Followers(s, f)|
    && Terminal(s.heap[f])
    && (!s.heap[f].eventSet ==> s.heap[f].leader in s.callers && Leads(s.callers[s.heap[f].leader], f))
  }

  /** A caller is with a flight of its own key; only the leader of an unfinished flight leads
      it; what a finished call was told is what its flight says. */
  predicate CallerSound(s: State, t: Caller)
    requires t in s.callers
  {
    var p := s.callers[t];
    && p.flight < |s.heap|
    && p.key == s.heap[p.flight].key
    && (Leads(p, p.flight) ==> !s.heap[p.flight].eventSet && s.heap[p.flight].leader == t)
    && (p.Woken? ==> s.heap[p.flight].eventSet)
    && (p.Finished? ==>
          if p.ending == AsTimeout then p.outcome == Raised(WaitTimedOut)
          else s.heap[p.flight].eventSet && p.outcome == Told(s.heap[p.flight]))
  }

  predicate KeySound(s: State, k: Key)
    requires k in s.flights
  {
    s.flights[k] < |s.heap| && s.heap[s.flights[k]].key == k
  }

  ghost predicate Inv(s: State) {
    && (forall f :: 0 <= f < |s.heap| ==> FlightSound(s, f))
    && (forall t :: t in s.callers ==> CallerSound(s, t))
    && (forall k :: k in s.flights ==> KeySound(s, k))
  }

  // ---------------------------------------------------------------------------
  // Every step keeps the invariant
  // ---------------------------------------------------------------------------

  lemma FollowersAfterMove(s: State, s': State, t: Caller, p: Position, f: nat)
    requires s'.callers == s.callers[t := p]
    ensures Followers(s', f) == if Follows(p, f) then Followers(s, f) + {t} else Followers(s, f) - {t}
    ensures |Followers(s', f)| == |Followers(s, f)| + (if Follows(p, f) then 1 else 0)
            - (if t in s.callers && Follows(s.callers[t], f) then 1 else 0)
  {
  }

  /** `s'` differs from `s` in one caller and in the one flight that caller is with. */
  ghost predicate Local(s: State, s': State, t: Caller, f: nat) {
    && t in s'.callers && s'.callers == s.callers[t := s'.callers[t]]
    && s'.callers[t].flight == f < |s'.heap|
    && (InCall(s, t) ==> s.callers[t].flight == f)
    && |s.heap| <= |s'.heap| <= |s.heap| + 1
    && (forall g :: 0 <= g < |s.heap| && g != f ==> s'.heap[g] == s.heap[g])
    && (|s'.heap| == |s.heap| + 1 ==> f == |s.heap|)
    && (f < |s.heap| ==> Evolves(s.heap[f], s'.heap[f]))
    && (f < |s.heap| && !s.heap[f].eventSet && s'.heap[f].eventSet ==> s.heap[f].leader == t)
  }

  /** A flight object keeps its identity, and its outcome once it has one. */
  predicate Evolves(before: Flight, after: Flight) {
    && after.key == before.key && after.leader == before.leader
    && (before.eventSet ==> after.eventSet && Told(after) == Told(before))
  }

  lemma OtherFlight(s: State, s': State, t: Caller, f: nat, g: nat)
    requires Inv(s) && Local(s, s', t, f) && g < |s'.heap| && g != f
    requires Live(s, g) ==> Registered(s', g)
    ensures FlightSound(s', g)
  {
    assert FlightSound(s, g);
    FollowersAfterMove(s, s', t, s'.callers[t], g);
  }

  lemma OtherCaller(s: State, s': State, t: Caller, f: nat, u: Caller)
    requires Inv(s) && Local(s, s', t, f) && u in s.callers && u != t
    ensures CallerSound(s', u)
  {
    assert CallerSound(s, u);
  }

  lemma LocalKeepsInv(s: State, s': State, t: Caller, f: nat)
    requires Inv(s) && Local(s, s', t, f)
    requires forall g :: 0 <= g < |s.heap| && g != f && Live(s, g) ==> Registered(s', g)
    requires FlightSound(s', f) && CallerSound(s', t)
    requires forall k :: k in s'.flights ==> KeySound(s', k)
    ensures Inv(s')
  {
    forall g | 0 <= g < |s'.heap|
      ensures FlightSound(s', g)
    {
      if g != f {
        OtherFlight(s, s', t, f, g);
      }
    }
    forall u | u in s'.callers
      ensures CallerSound(s', u)
    {
      if u != t {
        OtherCaller(s, s', t, f, u);
      }
    }
  }

  lemma CreateKeepsInv(s: State, t: Caller, key: Key)
    requires Inv(s) && Enabled(s, Enter(t, key)) && key !in s.flights
    ensures Inv(Next(s, Enter(t, key)))
  {
    var s' := Next(s, Enter(t, key));
    var f := |s.heap|;
    FollowersAfterMove(s, s', t, s'.callers[t], f);
    assert Followers(s, f) == {} by {
      forall u | u in s.callers
        ensures !Follows(s.callers[u], f)
      {
        assert CallerSound(s, u);
      }
    }
    forall k | k in s'.flights
      ensures KeySound(s', k)
    {
      if k != key {
        assert KeySound(s, k);
      }
    }
    forall g | 0 <= g < |s.heap| && Live(s, g)
      ensures Registered(s', g)
    {
      assert FlightSound(s, g);
    }
    LocalKeepsInv(s, s', t, f);
  }

  lemma JoinKeepsInv(s: State, t: Caller, key: Key)
    requires Inv(s) && Enabled(s, Enter(t, key)) && key in s.flights
    ensures Inv(Next(s, Enter(t, key)))
  {
    var s' := Next(s, Enter(t, key));
    var f := s.flights[key];
    assert KeySound(s, key) && FlightSound(s, f);
    FollowersAfterMove(s, s', t, s'.callers[t], f);
    SameRegistry(s, s', t, f);
    LocalKeepsInv(s, s', t, f);
  }

  lemma SameRegistry(s: State, s': State, t: Caller, f: nat)
    requires Inv(s) && Local(s, s', t, f) && s'.flights == s.flights && |s'.heap| == |s.heap|
    ensures forall g :: 0 <= g < |s.heap| && g != f && Live(s, g) ==> Registered(s', g)
    ensures forall k :: k in s'.flights ==> KeySound(s', k)
  {
    forall g | 0 <= g < |s.heap| && g != f && Live(s, g)
      ensures Registered(s', g)
    {
      assert FlightSound(s, g);
    }
    forall k | k in s'.flights
      ensures KeySound(s', k)
    {
      assert KeySound(s, k);
    }
  }

  /** Popping the key of a flight that was registered never removes another live flight. */
  lemma PopIsOwn(s: State, s': State, t: Caller, f: nat, key: Key)
    requires Inv(s) && Local(s, s', t, f) && |s'.heap| == |s.heap|
    requires s'.flights == s.flights - {key} && s.heap[f].key == key && Registered(s, f)
    ensures forall g :: 0 <= g < |s.heap| && g != f && Live(s, g) ==> Registered(s', g)
    ensures forall k :: k in s'.flights ==> KeySound(s', k)
  {
    forall g | 0 <= g < |s.heap| && g != f && Live(s, g)
      ensures Registered(s', g)
    {
      assert FlightSound(s, g);
    }
    forall k | k in s'.flights
      ensures KeySound(s', k)
    {
      assert KeySound(s, k);
    }
  }

  lemma QuietStepKeepsInv(s: State, step: Step)
    requires Inv(s) && Enabled(s, step) && (step.ProbeEnds? || step.WaitSucceeds? || step.WaitExpires?)
    ensures Inv(Next(s, step))
  {
    var t := step.caller;
    var s' := Next(s, step);
    var f := s.callers[t].flight;
    assert CallerSound(s, t) && FlightSound(s, f);
    FollowersAfterMove(s, s', t, s'.callers[t], f);
    SameRegistry(s, s', t, f);
    LocalKeepsInv(s, s', t, f);
  }

  lemma EndIsTerminal(f: Flight, end: ProbeEnd)
    requires Terminal(f) && !f.eventSet
    ensures Terminal(Ended(f, end)) && Told(Ended(f, end)) == EndOutcome(end)
    ensures Ended(f, end).eventSet && Evolves(f, Ended(f, end)) && Ended(f, end).waiters == f.waiters
  {
  }

  /** What publishing does to the state: one flight ends, and its key may go. */
  lemma PublishedIs(s: State, t: Caller)
    requires Enabled(s, Publish(t))
    ensures var s', f := Next(s, Publish(t)), s.callers[t].flight;
            && s'.heap == s.heap[f := Ended(s.heap[f], s.callers[t].end)]
            && s'.callers == s.callers[t := Finished(s.callers[t].key, f, AsLeader, EndOutcome(s.callers[t].end))]
            && (s'.flights == s.flights || (s'.heap[f].waiters == 0 && s'.flights == s.flights - {s.callers[t].key}))
  {
    hide Ended, EndOutcome;
  }

  lemma PublishedSound(s: State, t: Caller)
    requires Inv(s) && Enabled(s, Publish(t))
    ensures Local(s, Next(s, Publish(t)), t, s.callers[t].flight)
    ensures FlightSound(Next(s, Publish(t)), s.callers[t].flight)
    ensures CallerSound(Next(s, Publish(t)), t)
    ensures Registered(s, s.callers[t].flight) && |Next(s, Publish(t)).heap| == |s.heap|
  {
    hide Ended, EndOutcome, Told, Terminal, Next, Inv;
    var s' := Next(s, Publish(t));
    var f := s.callers[t].flight;
    PublisherSound(s, t);
    PublishedIs(s, t);
    EndIsTerminal(s.heap[f], s.callers[t].end);
    FollowersAfterMove(s, s', t, s'.callers[t], f);
    assert Followers(s', f) == Followers(s, f);
  }

  lemma PublisherSound(s: State, t: Caller)
    requires Inv(s) && Enabled(s, Publish(t))
    ensures CallerSound(s, t) && FlightSound(s, s.callers[t].flight)
  {
  }

  lemma PublishKeepsInv(s: State, t: Caller)
    requires Inv(s) && Enabled(s, Publish(t))
    ensures Inv(Next(s, Publish(t)))
  {
    var s' := Next(s, Publish(t));
    var f := s.callers[t].flight;
    PublishedSound(s, t);
    assert CallerSound(s, t);
    if s'.heap[f].waiters == 0 {
      PopIsOwn(s, s', t, f, s.callers[t].key);
    } else {
      SameRegistry(s, s', t, f);
    }
    LocalKeepsInv(s, s', t, f);
  }

  lemma ExitKeepsInv(s: State, step: Step)
    requires Inv(s) && Enabled(s, step) && (step.ExpiredExit? || step.WokenExit?)
    ensures Inv(Next(s, step))
  {
    var t := step.caller;
    var s' := Next(s, step);
    var f := s.callers[t].flight;
    assert CallerSound(s, t) && FlightSound(s, f);
    assert t in Followers(s, f);
    FollowersAfterMove(s, s', t, s'.callers[t], f);
    if step.WokenExit? && s'.heap[f].waiters == 0 {
      PopIsOwn(s, s', t, f, s.callers[t].key);
    } else {
      SameRegistry(s, s', t, f);
    }
    LocalKeepsInv(s, s', t, f);
  }

  lemma StepKeepsInv(s: State, step: Step)
    requires Inv(s) && Enabled(s, step)
    ensures Inv(Next(s, step))
  {
    match step
    case Enter(t, key) =>
      if key in s.flights {
        JoinKeepsInv(s, t, key);
      } else {
        CreateKeepsInv(s, t, key);
      }
    case ProbeEnds(_, _) => QuietStepKeepsInv(s, step);
    case Publish(t) => PublishKeepsInv(s, t);
    case WaitSucceeds(_) => QuietStepKeepsInv(s, step);
    case WaitExpires(_) => QuietStepKeepsInv(s, step);
    case ExpiredExit(_) => ExitKeepsInv(s, step);
    case WokenExit(_) => ExitKeepsInv(s, step);
  }

  // ---------------------------------------------------------------------------
  // Runs
  // ---------------------------------------------------------------------------

  /** The state after a run, None when some step was not enabled where it was taken. */
  function After(steps: seq<Step>): Option<State> {
    if steps == [] then Some(START)
    else
      var before := After(steps[..|steps| - 1]);
      var step := steps[|steps| - 1];
      if before.Some? && Enabled(before.value, step) then Some(Next(before.value, step)) else None
  }

  lemma {:induction false} RunKeepsInv(steps: seq<Step>, s: State)
    requires After(steps) == Some(s)
    ensures Inv(s)
  {
    if steps != [] {
      var before := steps[..|steps| - 1];
      RunKeepsInv(before, After(before).value);
      StepKeepsInv(After(before).value, steps[|steps| - 1]);
    }
  }

  predicate InProbe(s: State, t: Caller) {
    t in s.callers && (s.callers[t].Probing? || s.callers[t].Publishing?)
  }

  /** In every interleaving at most one caller per key is inside the probe, or has left it
      without having published yet. */
  lemma AtMostOneProbe(steps: seq<Step>, s: State, t: Caller, u: Caller)
    requires After(steps) == Some(s)
    requires InProbe(s, t) && InProbe(s, u) && s.callers[t].key == s.callers[u].key
    ensures t == u
  {
    RunKeepsInv(steps, s);
    assert CallerSound(s, t) && CallerSound(s, u);
    assert FlightSound(s, s.callers[t].flight) && FlightSound(s, s.callers[u].flight);
  }

  predicate WasTold(s: State, t: Caller) {
    t in s.callers && s.callers[t].Finished? && !s.callers[t].ending.AsTimeout?
  }

  /** Whoever does not time out is told the terminal outcome of the flight it joined: leader
      and followers of one flight had the same key and agree. */
  lemma SharedOutcome(steps: seq<Step>, s: State, t: Caller, u: Caller)
    requires After(steps) == Some(s)
    requires WasTold(s, t) && WasTold(s, u) && s.callers[t].flight == s.callers[u].flight
    ensures s.callers[t].outcome == s.callers[u].outcome && s.callers[t].key == s.callers[u].key
    ensures s.callers[t].outcome != Raised(WaitTimedOut)
  {
    RunKeepsInv(steps, s);
    assert CallerSound(s, t) && CallerSound(s, u);
    assert FlightSound(s, s.callers[t].flight);
  }

  /** The outcome is the probe's: its value, its exception, or the lack of a terminal outcome. */
  ghost predicate Tells(end: ProbeEnd, outcome: Outcome) {
    match end
    case Gave(v) => outcome == Returned(v)
    case GaveNone => outcome == Raised(NoTerminalOutcome)
    case Threw(code) => outcome == Raised(ProbeRaised(code))
  }

  /** The probe that `t` ran for flight `f` ended this way at some step of the run. */
  ghost predicate ProbeEnded(steps: seq<Step>, t: Caller, f: nat, end: ProbeEnd) {
    exists i :: 0 <= i < |steps| && steps[i] == ProbeEnds(t, end) && RanFor(After(steps[..i]), t, f)
  }

  ghost predicate RanFor(s: Option<State>, t: Caller, f: nat) {
    s.Some? && t in s.value.callers && s.value.callers[t].Probing? && s.value.callers[t].flight == f
  }

  /** What publishers are about to say and finished flights say is how their probe ended. */
  ghost predicate Probed(steps: seq<Step>, s: State) {
    && (forall t :: t in s.callers && s.callers[t].Publishing? ==> ProbeEnded(steps, t, s.callers[t].flight, s.callers[t].end))
    && (forall f :: 0 <= f < |s.heap| && s.heap[f].eventSet ==>
          exists end :: ProbeEnded(steps, s.heap[f].leader, f, end) && Tells(end, Told(s.heap[f])))
  }

  lemma StillEnded(steps: seq<Step>, t: Caller, f: nat, end: ProbeEnd)
    requires steps != [] && ProbeEnded(steps[..|steps| - 1], t, f, end)
    ensures ProbeEnded(steps, t, f, end)
  {
    hide After;
    var before := steps[..|steps| - 1];
    var i :| 0 <= i < |before| && before[i] == ProbeEnds(t, end) && RanFor(After(before[..i]), t, f);
    assert before[..i] == steps[..i];
  }

  lemma JustEnded(steps: seq<Step>, s: State, t: Caller, end: ProbeEnd)
    requires steps != [] && steps[|steps| - 1] == ProbeEnds(t, end) && After(steps[..|steps| - 1]) == Some(s)
    requires t in s.callers && s.callers[t].Probing?
    ensures ProbeEnded(steps, t, s.callers[t].flight, end)
  {
    hide After;
    assert RanFor(After(steps[..|steps| - 1]), t, s.callers[t].flight);
  }

  lemma PublishedTells(f: Flight, end: ProbeEnd)
    requires Terminal(f) && !f.eventSet
    ensures Tells(end, Told(Ended(f, end))) && Ended(f, end).leader == f.leader && Ended(f, end).eventSet
  {
  }

  /** One step leaves every finished flight's outcome alone, unless it is the one that finishes it. */
  lemma StepTells(s: State, step: Step, f: nat)
    requires Inv(s) && Enabled(s, step) && f < |Next(s, step).heap| && Next(s, step).heap[f].eventSet
    ensures f < |s.heap| && Next(s, step).heap[f].leader == s.heap[f].leader
    ensures if s.heap[f].eventSet then Told(Next(s, step).heap[f]) == Told(s.heap[f])
            else
              && step.Publish? && s.callers[step.caller].flight == f && s.heap[f].leader == step.caller
              && Tells(s.callers[step.caller].end, Told(Next(s, step).heap[f]))
  {
    hide Tells, Ended, Inv;
    if step.Publish? && s.callers[step.caller].flight == f {
      PublisherLeads(s, step.caller);
      PublishedTells(s.heap[f], s.callers[step.caller].end);
    }
  }

  lemma PublisherLeads(s: State, t: Caller)
    requires Inv(s) && t in s.callers && s.callers[t].Publishing?
    ensures var f := s.callers[t].flight;
            f < |s.heap| && s.heap[f].leader == t && !s.heap[f].eventSet && Terminal(s.heap[f])
  {
    assert CallerSound(s, t);
    assert FlightSound(s, s.callers[t].flight);
  }

  lemma {:induction false} RunProbes(steps: seq<Step>, s: State)
    requires After(steps) == Some(s)
    ensures Probed(steps, s)
  {
    hide Inv, Tells, ProbeEnded;
    if steps != [] {
      var before, step := steps[..|steps| - 1], steps[|steps| - 1];
      var b := After(before).value;
      RunProbes(before, b);
      RunKeepsInv(before, b);
      forall t | t in s.callers && s.callers[t].Publishing?
        ensures ProbeEnded(steps, t, s.callers[t].flight, s.callers[t].end)
      {
        StepPublishes(b, step, t);
        if step == ProbeEnds(t, s.callers[t].end) {
          JustEnded(steps, b, t, s.callers[t].end);
        } else {
          StillEnded(steps, t, s.callers[t].flight, s.callers[t].end);
        }
      }
      forall f | 0 <= f < |s.heap| && s.heap[f].eventSet
        ensures exists end :: ProbeEnded(steps, s.heap[f].leader, f, end) && Tells(end, Told(s.heap[f]))
      {
        StepTells(b, step, f);
        if b.heap[f].eventSet {
          var end :| ProbeEnded(before, b.heap[f].leader, f, end) && Tells(end, Told(b.heap[f]));
          StillEnded(steps, b.heap[f].leader, f, end);
        } else {
          StillEnded(steps, step.caller, f, b.callers[step.caller].end);
        }
      }
    }
  }

  lemma StepPublishes(s: State, step: Step, t: Caller)
    requires Enabled(s, step) && t in Next(s, step).callers && Next(s, step).callers[t].Publishing?
    ensures t in s.callers && Next(s, step).callers[t].flight == s.callers[t].flight
    ensures if step.ProbeEnds? && step.caller == t then s.callers[t].Probing? && step.end == Next(s, step).callers[t].end
            else s.callers[t] == Next(s, step).callers[t]
  {
  }

  /** In every interleaving, whoever does not time out is told how the one probe of its flight
      ended, which the leader of that flight ran. */
  lemma ToldIsTheProbes(steps: seq<Step>, s: State, t: Caller) returns (end: ProbeEnd)
    requires After(steps) == Some(s) && WasTold(s, t)
    ensures s.callers[t].flight < |s.heap|
    ensures ProbeEnded(steps, s.heap[s.callers[t].flight].leader, s.callers[t].flight, end)
    ensures Tells(end, s.callers[t].outcome)
  {
    hide Tells, ProbeEnded;
    RunKeepsInv(steps, s);
    RunProbes(steps, s);
    assert CallerSound(s, t);
    end :| ProbeEnded(steps, s.heap[s.callers[t].flight].leader, s.callers[t].flight, end) && Tells(end, Told(s.heap[s.callers[t].flight]));
  }

  /** A waiting caller is never forgotten: its wait can succeed, or the leader of its flight
      is still in the probe or about to publish. */
  lemma WaiterHasLeader(steps: seq<Step>, s: State, t: Caller)
    requires After(steps) == Some(s)
    requires t in s.callers && s.callers[t].Waiting?
    ensures s.callers[t].flight < |s.heap|
    ensures Enabled(s, WaitSucceeds(t))
         || (InProbe(s, s.heap[s.callers[t].flight].leader)
             && s.callers[s.heap[s.callers[t].flight].leader].flight == s.callers[t].flight)
  {
    RunKeepsInv(steps, s);
    assert CallerSound(s, t);
    assert FlightSound(s, s.callers[t].flight);
  }

  ghost predicate Quiescent(s: State) {
    forall t :: t in s.callers ==> !InCall(s, t)
  }

  predicate FinishedUnheld(s: State, key: Key)
    requires key in s.flights
  {
    s.flights[key] < |s.heap| && s.heap[s.flights[key]].eventSet && s.heap[s.flights[key]].waiters == 0
  }

  /** When no call is in progress every registered flight is finished and unheld. */
  lemma QuiescentFlightsFinished(steps: seq<Step>, s: State, key: Key)
    requires After(steps) == Some(s) && Quiescent(s) && key in s.flights
    ensures FinishedUnheld(s, key)
  {
    RunKeepsInv(steps, s);
    assert KeySound(s, key);
    assert FlightSound(s, s.flights[key]);
    assert Followers(s, s.flights[key]) == {};
  }

  /** ... and the next call with its key is told that flight's outcome without a probe, and
      removes it. */
  lemma NextCallRemovesLeftover(s: State, t: Caller, key: Key)
    requires Inv(s) && !InCall(s, t) && key in s.flights && FinishedUnheld(s, key)
    ensures var s1 := Next(s, Enter(t, key));
            && Enabled(s1, WaitSucceeds(t))
            && var s2 := Next(s1, WaitSucceeds(t));
            && Enabled(s2, WokenExit(t))
            && var s3 := Next(s2, WokenExit(t));
            && key !in s3.flights
            && s3.callers[t].outcome == Told(s.heap[s.flights[key]])
  {
    assert KeySound(s, key);
  }

  // ---------------------------------------------------------------------------
  // What becomes of a leftover, in every interleaving
  // ---------------------------------------------------------------------------

  /** `f` is finished for its key with outcome `o`, and no wait on it has expired. */
  ghost predicate Concluded(s: State, f: nat, key: Key, o: Outcome) {
    && f < |s.heap| && s.heap[f].key == key && s.heap[f].eventSet && Told(s.heap[f]) == o
    && (forall t :: t in s.callers && s.callers[t].flight == f ==> !s.callers[t].Expired?)
  }

  /** The step is a wait on `f` that expires; the event of a finished flight is set, and a wait on
      it returns at once. */
  predicate ExpiresOn(s: State, step: Step, f: nat) {
    step.WaitExpires? && step.caller in s.callers && s.callers[step.caller].flight == f
  }

  lemma StepKeepsConcluded(s: State, step: Step, f: nat, key: Key, o: Outcome)
    requires Inv(s) && Enabled(s, step) && Concluded(s, f, key, o) && !ExpiresOn(s, step, f)
    ensures Concluded(Next(s, step), f, key, o)
  {
    StepIsLocal(s, step);
    assert FlightSound(s, f);
    if InCall(s, step.caller) {
      assert CallerSound(s, step.caller);
    }
  }

  /** An idle leftover: registered and held by nobody. */
  predicate Idle(s: State, f: nat)
    requires f < |s.heap|
  {
    Registered(s, f) && Followers(s, f) == {}
  }

  /** A leftover in use, or removed. */
  predicate InUse(s: State, f: nat)
    requires f < |s.heap|
  {
    Registered(s, f) ==> Followers(s, f) != {}
  }

  predicate Enters(step: Step, key: Key) {
    step.Enter? && step.key == key
  }

  lemma EnterUses(s: State, step: Step, f: nat, key: Key, o: Outcome)
    requires Inv(s) && Enabled(s, step) && Concluded(s, f, key, o) && Enters(step, key)
    ensures f < |Next(s, step).heap| && InUse(Next(s, step), f)
  {
    var s' := Next(s, step);
    StepIsLocal(s, step);
    if Registered(s', f) {
      assert step.caller in Followers(s', f);
    }
  }

  lemma SoundParts(s: State, t: Caller, f: nat)
    requires Inv(s)
    ensures f < |s.heap| ==> FlightSound(s, f)
    ensures t in s.callers ==> CallerSound(s, t) && FlightSound(s, s.callers[t].flight)
  {
  }

  lemma StepFollows(s: State, step: Step, f: nat)
    requires Inv(s) && Enabled(s, step) && f < |s.heap|
    ensures var t, s' := step.caller, Next(s, step);
            && f < |s'.heap| && t in s'.callers
            && Followers(s', f) == (if Follows(s'.callers[t], f) then Followers(s, f) + {t} else Followers(s, f) - {t})
  {
    hide Inv, Next, Followers;
    LocalParts(s, step, f);
    FollowersAfterMove(s, Next(s, step), step.caller, Next(s, step).callers[step.caller], f);
  }

  /** A step registers no flight that was there before, and takes off only one that its caller
      leaves and nobody waits for. */
  lemma StepRegisters(s: State, step: Step, f: nat)
    requires Inv(s) && Enabled(s, step) && f < |s.heap|
    ensures var t, s' := step.caller, Next(s, step);
            && f < |s'.heap|
            && (Registered(s', f) ==> Registered(s, f))
            && (Registered(s, f) && !Registered(s', f) ==> InCall(s, t) && s.callers[t].flight == f && s'.heap[f].waiters == 0)
  {
    hide Told, Terminal, Ended, EndOutcome, Inv, Followers, FlightSound;
    LocalParts(s, step, f);
    SoundParts(s, step.caller, f);
    if step.Enter? && step.key in s.flights {
      KeyParts(s, step.key);
    }
    if InCall(s, step.caller) && s.callers[step.caller].flight != f && Registered(s, f) {
      OtherKey(s, step, f);
    }
  }

  lemma OtherKey(s: State, step: Step, f: nat)
    requires Inv(s) && Enabled(s, step) && f < |s.heap| && InCall(s, step.caller) && s.callers[step.caller].flight != f
    requires Registered(s, f)
    ensures f < |Next(s, step).heap| && Registered(Next(s, step), f)
  {
    hide Told, Terminal, Ended, EndOutcome, Inv;
    var t := step.caller;
    SoundParts(s, t, f);
    assert Follows(s.callers[t], s.callers[t].flight) ==> t in Followers(s, s.callers[t].flight);
  }

  /** Whoever follows `f` after a step followed it before, or has just entered with its key. */
  lemma StepJoins(s: State, step: Step, f: nat)
    requires Inv(s) && Enabled(s, step) && f < |s.heap|
    ensures var t, s' := step.caller, Next(s, step);
            t in s'.callers && Follows(s'.callers[t], f) ==>
              Enters(step, s.heap[f].key) || (t in s.callers && Follows(s.callers[t], f))
  {
    hide Told, Terminal, Ended, EndOutcome, Inv, Followers;
    if step.Enter? && step.key in s.flights {
      KeyParts(s, step.key);
    }
  }

  lemma LocalParts(s: State, step: Step, f: nat)
    requires Inv(s) && Enabled(s, step) && f < |s.heap|
    ensures var t, s' := step.caller, Next(s, step);
            t in s'.callers && s'.callers == s.callers[t := s'.callers[t]] && |s.heap| <= |s'.heap| && s'.heap[f].key == s.heap[f].key
  {
    hide Next, Inv;
    StepIsLocal(s, step);
  }

  lemma KeyParts(s: State, key: Key)
    requires Inv(s) && key in s.flights
    ensures KeySound(s, key)
  {
  }

  lemma StaysInUse(s: State, step: Step, f: nat, key: Key, o: Outcome)
    requires Inv(s) && Enabled(s, step) && Concluded(s, f, key, o) && !ExpiresOn(s, step, f) && InUse(s, f)
    ensures f < |Next(s, step).heap| && InUse(Next(s, step), f)
  {
    hide Told, Inv, Next, Followers, Registered;
    StepRegisters(s, step, f);
    StepFollows(s, step, f);
    if Registered(s, f) && Followers(Next(s, step), f) == {} {
      LastLeaves(s, step, f);
    }
  }

  /** The last follower to leave takes the key along, unless its wait expired. */
  lemma LastLeaves(s: State, step: Step, f: nat)
    requires Inv(s) && Enabled(s, step) && f < |s.heap| && s.heap[f].eventSet
    requires forall t :: t in s.callers && s.callers[t].flight == f ==> !s.callers[t].Expired?
    requires Followers(s, f) != {} && f < |Next(s, step).heap| && Followers(Next(s, step), f) == {}
    ensures !Registered(Next(s, step), f)
  {
    hide Told, Terminal, Ended, EndOutcome, Inv;
    var t := step.caller;
    StepFollows(s, step, f);
    StepKeepsInv(s, step);
    SoundParts(s, t, f);
    SoundParts(Next(s, step), t, f);
    assert Followers(s, f) == {t};
    assert t in Followers(s, f);
  }

  lemma StaysIdle(s: State, step: Step, f: nat, key: Key, o: Outcome)
    requires Inv(s) && Enabled(s, step) && Concluded(s, f, key, o) && !Enters(step, key) && Idle(s, f)
    ensures f < |Next(s, step).heap| && Idle(Next(s, step), f)
  {
    hide Told, Inv, Next, Followers, Registered;
    var t := step.caller;
    StepRegisters(s, step, f);
    StepFollows(s, step, f);
    StepJoins(s, step, f);
    if t in s.callers {
      IdleIsAlone(s, t, f);
      SoundParts(s, t, f);
    }
  }

  lemma IdleIsAlone(s: State, t: Caller, f: nat)
    requires f < |s.heap| && t in s.callers && Followers(s, f) == {}
    ensures !Follows(s.callers[t], f)
  {
    assert t !in Followers(s, f);
  }

  /** No wait on `f` expires from step `n` on. */
  predicate NeverExpiresOn(steps: seq<Step>, n: nat, f: nat)
    requires n <= |steps|
  {
    forall i :: n <= i < |steps| && After(steps[..i]).Some? ==> !ExpiresOn(After(steps[..i]).value, steps[i], f)
  }

  predicate Entered(steps: seq<Step>, n: nat, key: Key)
    requires n <= |steps|
  {
    exists i :: n <= i < |steps| && Enters(steps[i], key)
  }

  lemma {:induction false} LeftoverFate(steps: seq<Step>, n: nat, s0: State, s: State, f: nat, key: Key, o: Outcome)
    requires n <= |steps| && After(steps[..n]) == Some(s0) && After(steps) == Some(s)
    requires Concluded(s0, f, key, o) && Idle(s0, f) && NeverExpiresOn(steps, n, f)
    ensures Concluded(s, f, key, o) && if Entered(steps, n, key) then InUse(s, f) else Idle(s, f)
  {
    hide Inv, Enabled, Next, Concluded, Idle, InUse, Enters, Entered;
    if n == |steps| {
      assert steps[..n] == steps;
      NobodyEntered(steps, key);
    } else {
      var before, step := steps[..|steps| - 1], steps[|steps| - 1];
      var b := After(before).value;
      assert before[..n] == steps[..n];
      forall i | n <= i < |before| && After(before[..i]).Some?
        ensures !ExpiresOn(After(before[..i]).value, before[i], f)
      {
        assert before[..i] == steps[..i];
      }
      LeftoverFate(before, n, s0, b, f, key, o);
      RunKeepsInv(before, b);
      assert steps[..|steps| - 1] == before;
      StepKeepsConcluded(b, step, f, key, o);
      EnteredMore(steps, n, key);
      if Enters(step, key) {
        EnterUses(b, step, f, key, o);
      } else if Entered(before, n, key) {
        StaysInUse(b, step, f, key, o);
      } else {
        StaysIdle(b, step, f, key, o);
      }
    }
  }

  lemma NobodyEntered(steps: seq<Step>, key: Key)
    ensures !Entered(steps, |steps|, key)
  {
  }

  lemma EnteredMore(steps: seq<Step>, n: nat, key: Key)
    requires n < |steps|
    ensures Entered(steps, n, key) <==> Enters(steps[|steps| - 1], key) || Entered(steps[..|steps| - 1], n, key)
  {
    var before := steps[..|steps| - 1];
    assert forall i :: 0 <= i < |before| ==> before[i] == steps[i];
  }

  lemma QuiescentIsUnheld(s: State, f: nat)
    requires Quiescent(s)
    ensures Followers(s, f) == {}
  {
  }

  lemma LeftoverIsConcluded(s: State, key: Key)
    requires Inv(s) && Quiescent(s) && key in s.flights
    ensures var f := s.flights[key]; f < |s.heap| && Concluded(s, f, key, Told(s.heap[f])) && Idle(s, f)
  {
    assert KeySound(s, key);
    assert FlightSound(s, s.flights[key]);
    QuiescentIsUnheld(s, s.flights[key]);
  }

  /** A flight left over when no call was in progress is gone when that is so again, whatever
      happened in between and in whatever order, exactly if some call of its key was made. */
  lemma LeftoverRemovedIff(steps: seq<Step>, n: nat, s0: State, s: State, key: Key)
    requires n <= |steps| && After(steps[..n]) == Some(s0) && After(steps) == Some(s)
    requires Quiescent(s0) && Quiescent(s) && key in s0.flights && NeverExpiresOn(steps, n, s0.flights[key])
    ensures !(key in s.flights && s.flights[key] == s0.flights[key]) <==> Entered(steps, n, key)
  {
    hide After, Enabled, Next, Inv, NeverExpiresOn, Entered;
    var f := s0.flights[key];
    RunKeepsInv(steps[..n], s0);
    LeftoverIsConcluded(s0, key);
    LeftoverFate(steps, n, s0, s, f, key, Told(s0.heap[f]));
    QuiescentIsUnheld(s, f);
  }

  /** Until then the next call of its key joins it, without a probe; and whoever was with it and
      did not time out was told its outcome, at every moment of the run. */
  lemma LeftoverIsShared(steps: seq<Step>, n: nat, s0: State, s: State, key: Key, t: Caller)
    requires n <= |steps| && After(steps[..n]) == Some(s0) && After(steps) == Some(s)
    requires Quiescent(s0) && key in s0.flights && NeverExpiresOn(steps, n, s0.flights[key])
    ensures s0.flights[key] < |s0.heap|
    ensures !Entered(steps, n, key) && !InCall(s, t) ==>
              Next(s, Enter(t, key)).callers[t] == Waiting(key, s0.flights[key])
    ensures WasTold(s, t) && s.callers[t].flight == s0.flights[key] ==> s.callers[t].outcome == Told(s0.heap[s0.flights[key]])
  {
    hide After, Inv, NeverExpiresOn, Entered;
    var f := s0.flights[key];
    RunKeepsInv(steps[..n], s0);
    LeftoverIsConcluded(s0, key);
    LeftoverFate(steps, n, s0, s, f, key, Told(s0.heap[f]));
    RunKeepsInv(steps, s);
    ToldByFlight(s, f);
  }

  lemma ToldByFlight(s: State, f: nat)
    requires Inv(s) && f < |s.heap|
    ensures forall t :: WasTold(s, t) && s.callers[t].flight == f ==> s.callers[t].outcome == Told(s.heap[f])
  {
    forall t | WasTold(s, t) && s.callers[t].flight == f
      ensures s.callers[t].outcome == Told(s.heap[f])
    {
      assert CallerSound(s, t);
    }
  }

  /** Every registered flight is unfinished or held by a follower, and nobody timed out. */
  ghost predicate NoLeftover(s: State) {
    && (forall k :: k in s.flights && s.flights[k] < |s.heap| ==> Live(s, s.flights[k]))
    && (forall t :: t in s.callers ==> !s.callers[t].Expired?)
  }

  lemma MovedFlightStaysLive(s: State, step: Step, f: nat)
    requires Inv(s) && NoLeftover(s) && Enabled(s, step) && !step.WaitExpires?
    requires var s' := Next(s, step);
             f < |s'.heap| && s'.callers[step.caller].flight == f && Registered(s', f)
    ensures Live(Next(s, step), f)
  {
    var t := step.caller;
    var s' := Next(s, step);
    StepKeepsInv(s, step);
    assert FlightSound(s', f);
    FollowersAfterMove(s, s', t, s'.callers[t], f);
    if t in s.callers {
      assert CallerSound(s, t);
    }
  }

  lemma StepIsLocal(s: State, step: Step)
    requires Inv(s) && Enabled(s, step)
    ensures Local(s, Next(s, step), step.caller, Next(s, step).callers[step.caller].flight)
  {
    if step.Enter? && step.key in s.flights {
      assert KeySound(s, step.key);
    }
    if InCall(s, step.caller) {
      assert CallerSound(s, step.caller);
      assert FlightSound(s, s.callers[step.caller].flight);
    }
  }

  lemma RegisteredBefore(s: State, step: Step, key: Key)
    requires Enabled(s, step) && key in Next(s, step).flights
    requires Next(s, step).callers[step.caller].flight != Next(s, step).flights[key]
    ensures key in s.flights && s.flights[key] == Next(s, step).flights[key]
  {
  }

  lemma OtherFlightStaysLive(s: State, step: Step, key: Key)
    requires Inv(s) && NoLeftover(s) && Enabled(s, step)
    requires key in Next(s, step).flights && Next(s, step).flights[key] < |Next(s, step).heap|
    requires Next(s, step).callers[step.caller].flight != Next(s, step).flights[key]
    ensures Live(Next(s, step), Next(s, step).flights[key])
  {
    var s' := Next(s, step);
    StepIsLocal(s, step);
    RegisteredBefore(s, step, key);
    assert KeySound(s, key);
    FollowersAfterMove(s, s', step.caller, s'.callers[step.caller], s'.flights[key]);
  }

  lemma StepLeavesNothing(s: State, step: Step)
    requires Inv(s) && NoLeftover(s) && Enabled(s, step) && !step.WaitExpires?
    ensures NoLeftover(Next(s, step))
  {
    var s' := Next(s, step);
    StepKeepsInv(s, step);
    forall k | k in s'.flights && s'.flights[k] < |s'.heap|
      ensures Live(s', s'.flights[k])
    {
      assert KeySound(s', k);
      if s'.callers[step.caller].flight == s'.flights[k] {
        MovedFlightStaysLive(s, step, s'.flights[k]);
      } else {
        OtherFlightStaysLive(s, step, k);
      }
    }
  }

  /** Without an expired wait nothing is ever left over. */
  lemma {:induction false} LeftoversNeedAnExpiredWait(steps: seq<Step>, s: State)
    requires After(steps) == Some(s)
    requires forall i :: 0 <= i < |steps| ==> !steps[i].WaitExpires?
    ensures NoLeftover(s)
  {
    if steps != [] {
      var before := steps[..|steps| - 1];
      LeftoversNeedAnExpiredWait(before, After(before).value);
      RunKeepsInv(before, After(before).value);
      StepLeavesNothing(After(before).value, steps[|steps| - 1]);
    }
  }

  lemma Extend(steps: seq<Step>, step: Step)
    requires After(steps).Some? && Enabled(After(steps).value, step)
    ensures After(steps + [step]) == Some(Next(After(steps).value, step))
  {
    assert (steps + [step])[..|steps|] == steps;
  }

  /** A leftover does arise when a wait expires while its leader publishes. */
  lemma ExpiredWaitLeavesOne() returns (steps: seq<Step>, s: State)
    ensures After(steps) == Some(s) && Quiescent(s) && "k" in s.flights
  {
    steps := [];
    Extend(steps, Enter(1, "k"));
    steps := steps + [Enter(1, "k")];
    Extend(steps, Enter(2, "k"));
    steps := steps + [Enter(2, "k")];
    Extend(steps, WaitExpires(2));
    steps := steps + [WaitExpires(2)];
    Extend(steps, ProbeEnds(1, Gave(7)));
    steps := steps + [ProbeEnds(1, Gave(7))];
    Extend(steps, Publish(1));
    steps := steps + [Publish(1)];
    Extend(steps, ExpiredExit(2));
    steps := steps + [ExpiredExit(2)];
    s := After(steps).value;
  }
}
