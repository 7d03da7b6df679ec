/** The stable audio port that playback subscribes to once, and its rebinding from one
    concrete engine port to another. */
module TransportRouter {
  import opened Wrappers

  datatype EngineId = QtMultimedia | GStreamer | Mpd

  type Port = nat
  type Consumer = nat

  datatype Kind = EndOfMedia | Position | Duration | MediaAccepted | MediaRejected | PlaybackState

  const KINDS: seq<Kind> := [EndOfMedia, Position, Duration, MediaAccepted, MediaRejected, PlaybackState]

  /** A forwarding callback; `id` is its object identity. */
  datatype Wrapper = Wrapper(id: nat, kind: Kind, generation: nat, port: Port)

  /** How the six subscriptions of an attach go: all succeed, or the `at`-th raises, with its
      callback registered or not. */
  datatype AttachFault = NoFault | FailsAt(at: nat, registers: bool)

  /** `registered` holds every wrapper currently in the subscription list of its port. */
  datatype Router = Router(bound: Option<Port>, engine: Option<EngineId>, generation: nat,
                           wrappers: seq<Wrapper>, registered: set<Wrapper>, created: nat,
                           consumers: map<Kind, seq<Consumer>>)

  const FRESH := Router(None, None, 0, [], {}, 0, map[])

  function Elements(ws: seq<Wrapper>): set<Wrapper> {
    set w | w in ws
  }

  /** The wrappers among `ws` whose unsubscription takes them off their port's list. */
  function Removed(ws: seq<Wrapper>, stuck: set<nat>): set<Wrapper> {
    set w | w in ws && w.id !in stuck
  }

  function NewWrappers(created: nat, generation: nat, port: Port): (ws: seq<Wrapper>)
    ensures |ws| == 6
  {
    seq(6, i requires 0 <= i < 6 => Wrapper(created + i, KINDS[i], generation, port))
  }

  /** Best-effort unsubscription of the wrappers of the current attach. */
  function Unhooked(r: Router, stuck: set<nat>): Router {
    r.(registered := r.registered - Removed(r.wrappers, stuck), wrappers := [])
  }

  function Detached(r: Router, stuck: set<nat>): Router {
    if r.bound.None? then r else Unhooked(r, stuck).(bound := None, engine := None)
  }

  predicate AttachSucceeds(fault: AttachFault) {
    fault.NoFault? || fault.at >= 6
  }

  /** The wrappers registered when the attach stops. */
  function Registers(ws: seq<Wrapper>, fault: AttachFault): set<Wrapper>
    requires |ws| == 6
  {
    if AttachSucceeds(fault) then Elements(ws)
    else Elements(ws[..fault.at]) + (if fault.registers then {ws[fault.at]} else {})
  }

  predicate AlreadyBound(r: Router, engine: EngineId, port: Port) {
    r.bound == Some(port) && r.engine == Some(engine)
  }

  /** The six subscriptions, up to the one that raises. */
  function Attached(r: Router, generation: nat, port: Port, fault: AttachFault): Router {
    var ws := NewWrappers(r.created, generation, port);
    r.(created := r.created + 6, wrappers := if AttachSucceeds(fault) then ws else ws[..fault.at],
       registered := r.registered + Registers(ws, fault))
  }

  /** `stuckOld` and `stuckNew` are the wrappers whose unsubscription raises without taking
      effect, in the detach of the previous port and in the rollback of a failed attach. */
  function Rebound(r: Router, engine: EngineId, port: Port, fault: AttachFault,
                   stuckOld: set<nat>, stuckNew: set<nat>): Router {
    if AlreadyBound(r, engine, port) then r
    else
      var d := Detached(r, stuckOld);
      var a := Attached(d.(bound := Some(port), engine := Some(engine)), d.generation + 1, port, fault);
      if AttachSucceeds(fault) then a.(generation := d.generation + 1)
      else Unhooked(a, stuckNew).(bound := None, engine := None)
  }

  function ConsumersOf(r: Router, kind: Kind): seq<Consumer> {
    if kind in r.consumers then r.consumers[kind] else []
  }

  function Subscribed(r: Router, kind: Kind, c: Consumer): Router {
    if c in ConsumersOf(r, kind) then r else r.(consumers := r.consumers[kind := ConsumersOf(r, kind) + [c]])
  }

  function Without(cs: seq<Consumer>, c: Consumer): seq<Consumer> {
    if cs == [] then [] else if cs[0] == c then cs[1..] else [cs[0]] + Without(cs[1..], c)
  }

  function Unsubscribed(r: Router, kind: Kind, c: Consumer): Router {
    if c in ConsumersOf(r, kind) then r.(consumers := r.consumers[kind := Without(ConsumersOf(r, kind), c)]) else r
  }

  // ---------------------------------------------------------------------------
  // Delivery
  // ---------------------------------------------------------------------------

  /** The guard inside every forwarding callback. */
  predicate Forwards(r: Router, w: Wrapper) {
    r.bound == Some(w.port) && r.generation == w.generation
  }

  /** The callbacks on `port`'s list for `kind` that pass their guard when an event fires;
      each of them calls every subscribed consumer of that kind once. */
  function Forwarding(r: Router, port: Port, kind: Kind): set<Wrapper> {
    set w | w in r.registered && w.port == port && w.kind == kind && Forwards(r, w)
  }

  /** Leftovers of a failed attach to `port` that the next binding would take for its own. */
  function Leftovers(r: Router, port: Port, kind: Kind): set<Wrapper> {
    set w | w in r.registered && w.port == port && w.kind == kind && w.generation == r.generation + 1
  }

  ghost predicate Clean(r: Router, port: Port) {
    forall kind :: Leftovers(r, port, kind) == {}
  }

  // ---------------------------------------------------------------------------
  // The class
  // ---------------------------------------------------------------------------

  /** The subscription lists of the concrete engine ports. */
  class PortTable {
    var registered: set<Wrapper>

    constructor ()
      ensures registered == {}
    {
      registered := {};
    }

    method Subscribe(w: Wrapper, raises: bool, takesEffect: bool) returns (ok: bool)
      modifies this
      ensures ok == !raises
      ensures registered == old(registered) + (if !raises || takesEffect then {w} else {})
    {
      if !raises || takesEffect {
        registered := registered + {w};
      }
      ok := !raises;
    }

    method Unsubscribe(w: Wrapper, stuck: bool)
      modifies this
      ensures registered == if stuck then old(registered) else old(registered) - {w}
    {
      if !stuck {
        registered := registered - {w};
      }
    }
  }

  class AudioTransportRouter {
    const ports: PortTable
    var bound: Option<Port>
    var boundEngineId: Option<EngineId>
    var bindingGeneration: nat
    var wrappers: seq<Wrapper>
    var created: nat
    var consumers: map<Kind, seq<Consumer>>

    ghost predicate Valid()
      reads this
    {
      bound.None? ==> boundEngineId.None? && wrappers == []
    }

    ghost function View(): Router
      reads this, ports
    {
      Router(bound, boundEngineId, bindingGeneration, wrappers, ports.registered, created, consumers)
    }

    constructor ()
      ensures Valid() && View() == FRESH && fresh(ports)
    {
      ports := new PortTable();
      bound, boundEngineId, bindingGeneration := None, None, 0;
      wrappers, created, consumers := [], 0, map[];
    }

    method Bind(engine: EngineId, port: Port, fault: AttachFault, stuckOld: set<nat>, stuckNew: set<nat>) returns (ok: bool)
      requires Valid()
      modifies this, ports
      ensures Valid()
      ensures View() == Rebound(old(View()), engine, port, fault, stuckOld, stuckNew)
      ensures ok == (AlreadyBound(old(View()), engine, port) || AttachSucceeds(fault))
    {
      hide Registers, Removed;
      if bound == Some(port) && boundEngineId == Some(engine) {
        return true;
      }
      Detach(stuckOld);
      ghost var detached := View();
      var gen := bindingGeneration + 1;
      bound := Some(port);
      boundEngineId := Some(engine);
      assert View() == detached.(bound := Some(port), engine := Some(engine));
      ok := Attach(gen, port, fault);
      assert View() == Attached(detached.(bound := Some(port), engine := Some(engine)), gen, port, fault);
      if !ok {
        UnsubscribeAll(stuckNew);
        bound := None;
        boundEngineId := None;
        return;
      }
      bindingGeneration := gen;
    }

    method Unbind(stuck: set<nat>)
      requires Valid()
      modifies this, ports
      ensures Valid() && View() == Detached(old(View()), stuck)
    {
      Detach(stuck);
    }

    method Attach(gen: nat, port: Port, fault: AttachFault) returns (ok: bool)
      requires wrappers == []
      modifies this, ports
      ensures ok == AttachSucceeds(fault)
      ensures View() == Attached(old(View()), gen, port, fault)
    {
      var factories := NewWrappers(created, gen, port);
      created := created + 6;
      for i := 0 to 6
        invariant wrappers == factories[..i]
        invariant AttachSucceeds(fault) || i <= fault.at
        invariant View() == old(View()).(created := old(created) + 6, wrappers := factories[..i],
                                         registered := old(ports.registered) + Elements(factories[..i]))
      {
        var raises := fault.FailsAt? && fault.at == i;
        var subscribed := ports.Subscribe(factories[i], raises, raises && fault.registers);
        if !subscribed {
          return false;
        }
        wrappers := wrappers + [factories[i]];
        assert factories[..i + 1] == factories[..i] + [factories[i]];
      }
      assert factories[..6] == factories;
      ok := true;
    }

    method Detach(stuck: set<nat>)
      requires Valid()
      modifies this, ports
      ensures Valid() && View() == Detached(old(View()), stuck)
    {
      if bound.None? {
        return;
      }
      UnsubscribeAll(stuck);
      bound := None;
      boundEngineId := None;
    }

    /** The best-effort loop shared by detach and by the rollback of a failed attach. */
    method UnsubscribeAll(stuck: set<nat>)
      modifies this, ports
      ensures View() == Unhooked(old(View()), stuck)
    {
      for i := 0 to |wrappers|
        invariant View() == old(View()).(registered := old(ports.registered) - Removed(old(wrappers)[..i], stuck))
      {
        ports.Unsubscribe(wrappers[i], wrappers[i].id in stuck);
        assert wrappers[..i + 1] == wrappers[..i] + [wrappers[i]];
      }
      assert wrappers[..|wrappers|] == wrappers;
      wrappers := [];
    }

    method SubscribeConsumer(kind: Kind, c: Consumer)
      modifies this
      ensures View() == Subscribed(old(View()), kind, c)
    {
      var cs := if kind in consumers then consumers[kind] else [];
      if c !in cs {
        consumers := consumers[kind := cs + [c]];
      }
    }

    method UnsubscribeConsumer(kind: Kind, c: Consumer)
      modifies this
      ensures View() == Unsubscribed(old(View()), kind, c)
    {
      var cs := if kind in consumers then consumers[kind] else [];
      if c in cs {
        consumers := consumers[kind := Without(cs, c)];
      }
    }

    /** One forwarding callback: the consumers it calls. */
    method Forward(w: Wrapper) returns (called: seq<Consumer>)
      ensures called == if Forwards(View(), w) then ConsumersOf(View(), w.kind) else []
    {
      if bound != Some(w.port) || bindingGeneration != w.generation {
        return [];
      }
      called := if w.kind in consumers then consumers[w.kind] else [];
    }
  }

  // ---------------------------------------------------------------------------
  // Runs
  // ---------------------------------------------------------------------------

  datatype Op =
    | DoBind(engine: EngineId, port: Port, fault: AttachFault, stuckOld: set<nat>, stuckNew: set<nat>)
    | DoUnbind(stuck: set<nat>)
    | DoSubscribe(kind: Kind, consumer: Consumer)
    | DoUnsubscribe(kind: Kind, consumer: Consumer)

  function Apply(r: Router, op: Op): Router {
    match op
    case DoBind(engine, port, fault, stuckOld, stuckNew) => Rebound(r, engine, port, fault, stuckOld, stuckNew)
    case DoUnbind(stuck) => Detached(r, stuck)
    case DoSubscribe(kind, c) => Subscribed(r, kind, c)
    case DoUnsubscribe(kind, c) => Unsubscribed(r, kind, c)
  }

  function After(ops: seq<Op>): Router {
    if ops == [] then FRESH else Apply(After(ops[..|ops| - 1]), ops[|ops| - 1])
  }

  /** The six wrappers of the current binding, one per kind, are all registered. */
  ghost predicate Current(r: Router) {
    && |r.wrappers| == 6
    && r.bound.Some? && r.engine.Some?
    && (forall i :: 0 <= i < 6 ==>
          r.wrappers[i].kind == KINDS[i] && r.wrappers[i].generation == r.generation
          && r.wrappers[i].port == r.bound.value && r.wrappers[i] in r.registered)
  }

  ghost predicate Distinct(cs: seq<Consumer>) {
    forall i, j :: 0 <= i < j < |cs| ==> cs[i] != cs[j]
  }

  ghost predicate Inv(r: Router) {
    && (r.bound.None? ==> r.engine.None? && r.wrappers == [])
    && (r.bound.Some? ==> Current(r))
    && (forall w :: w in r.registered ==> w.id < r.created && w.generation <= r.generation + 1)
    && (forall i :: 0 <= i < |r.wrappers| ==> r.wrappers[i].id < r.created)
    && (forall kind :: kind in r.consumers ==> Distinct(r.consumers[kind]))
  }

  lemma {:induction false} WithoutIsDistinct(cs: seq<Consumer>, c: Consumer)
    requires Distinct(cs)
    ensures Distinct(Without(cs, c))
    ensures forall x :: x in Without(cs, c) <==> x in cs && x != c
  {
    if cs != [] && cs[0] != c {
      var rest := Without(cs[1..], c);
      WithoutIsDistinct(cs[1..], c);
      assert cs[0] !in rest;
      assert cs == [cs[0]] + cs[1..];
    } else if cs != [] {
      assert cs == [c] + cs[1..];
    }
  }

  lemma BindKeepsInv(r: Router, engine: EngineId, port: Port, fault: AttachFault, stuckOld: set<nat>, stuckNew: set<nat>)
    requires Inv(r)
    ensures Inv(Rebound(r, engine, port, fault, stuckOld, stuckNew))
  {
  }

  lemma ApplyKeepsInv(r: Router, op: Op)
    requires Inv(r)
    ensures Inv(Apply(r, op))
  {
    match op
    case DoBind(engine, port, fault, stuckOld, stuckNew) => BindKeepsInv(r, engine, port, fault, stuckOld, stuckNew);
    case DoUnbind(_) =>
    case DoSubscribe(_, _) =>
    case DoUnsubscribe(kind, c) =>
      if kind in r.consumers {
        WithoutIsDistinct(r.consumers[kind], c);
      }
  }

  lemma {:induction false} RunKeepsInv(ops: seq<Op>)
    ensures Inv(After(ops))
  {
    if ops != [] {
      RunKeepsInv(ops[..|ops| - 1]);
      ApplyKeepsInv(After(ops[..|ops| - 1]), ops[|ops| - 1]);
    }
  }

  // ---------------------------------------------------------------------------
  // Who hears an event
  // ---------------------------------------------------------------------------

  /** An event from a port that is not the bound one reaches nobody. */
  lemma OnlyTheBoundPortIsHeard(r: Router, port: Port, kind: Kind)
    requires Forwarding(r, port, kind) != {}
    ensures r.bound == Some(port)
  {
    var w :| w in Forwarding(r, port, kind);
  }

  /** The wrapper's binding is over: superseded by a later one, or unbound. */
  predicate Over(r: Router, w: Wrapper) {
    w.generation < r.generation || (w.generation == r.generation && r.bound.None?)
  }

  lemma OverStays(r: Router, op: Op, w: Wrapper)
    requires Over(r, w)
    ensures Over(Apply(r, op), w)
  {
  }

  lemma {:induction false} OverForGood(ops: seq<Op>, n: nat, w: Wrapper)
    requires n <= |ops| && Over(After(ops[..n]), w)
    ensures Over(After(ops), w)
  {
    if n < |ops| {
      var before := ops[..|ops| - 1];
      assert before[..n] == ops[..n];
      OverForGood(before, n, w);
      OverStays(After(before), ops[|ops| - 1], w);
    } else {
      assert ops[..n] == ops;
    }
  }

  lemma ReplacedIsOver(r: Router, op: Op, w: Wrapper)
    requires Inv(r) && w in r.wrappers && Apply(r, op).wrappers != r.wrappers
    ensures Over(Apply(r, op), w)
  {
  }

  lemma AfterNext(ops: seq<Op>, n: nat)
    requires n < |ops|
    ensures After(ops[..n + 1]) == Apply(After(ops[..n]), ops[n])
  {
    assert ops[..n + 1][..n] == ops[..n];
  }

  /** Once a binding is unbound or replaced by another one, no callback created for it is ever
      forwarded again, registered or not, whatever happens later. */
  lemma SupersededNeverHeard(ops: seq<Op>, n: nat, r: Router, w: Wrapper)
    requires n < |ops| && After(ops[..n]) == r
    requires w in r.wrappers && Apply(r, ops[n]).wrappers != r.wrappers
    ensures !Forwards(After(ops), w)
  {
    AfterNext(ops, n);
    RunKeepsInv(ops[..n]);
    ReplacedIsOver(r, ops[n], w);
    OverForGood(ops, n + 1, w);
  }

  /** A bind either succeeds or leaves the router unbound, with nothing but leftovers. */
  lemma BindBindsOrUnbinds(r: Router, engine: EngineId, port: Port, fault: AttachFault, stuckOld: set<nat>, stuckNew: set<nat>)
    requires Inv(r)
    ensures var b := Rebound(r, engine, port, fault, stuckOld, stuckNew);
            if AlreadyBound(r, engine, port) || AttachSucceeds(fault) then b.bound == Some(port) && b.engine == Some(engine)
            else b.bound == None && b.engine == None && b.wrappers == [] && b.generation == r.generation
  {
  }

  lemma KindsAreDistinct(i: nat, j: nat)
    requires i < 6 && j < 6 && KINDS[i] == KINDS[j]
    ensures i == j
  {
  }

  function IndexOf(kind: Kind): (i: nat)
    ensures i < 6 && KINDS[i] == kind
  {
    match kind
    case EndOfMedia => 0
    case Position => 1
    case Duration => 2
    case MediaAccepted => 3
    case MediaRejected => 4
    case PlaybackState => 5
  }

  /** Right after a successful new binding, an event of the bound port is forwarded once for
      the binding itself and once for every leftover of a failed attach to the same port. */
  lemma BindForwards(r: Router, engine: EngineId, port: Port, fault: AttachFault, stuckOld: set<nat>, stuckNew: set<nat>, kind: Kind)
    requires Inv(r) && !AlreadyBound(r, engine, port) && AttachSucceeds(fault)
    ensures var b := Rebound(r, engine, port, fault, stuckOld, stuckNew);
            var own := b.wrappers[IndexOf(kind)];
            Forwarding(b, port, kind) == {own} + Leftovers(r, port, kind) && own !in Leftovers(r, port, kind)
    ensures |Forwarding(Rebound(r, engine, port, fault, stuckOld, stuckNew), port, kind)|
         == 1 + |Leftovers(r, port, kind)|
  {
    var b := Rebound(r, engine, port, fault, stuckOld, stuckNew);
    var own := b.wrappers[IndexOf(kind)];
    forall w
      ensures w in Forwarding(b, port, kind) <==> w == own || w in Leftovers(r, port, kind)
    {
      if w in Elements(b.wrappers) && w.kind == kind {
        var i: nat :| i < 6 && b.wrappers[i] == w;
        KindsAreDistinct(i, IndexOf(kind));
      }
    }
    assert Forwarding(b, port, kind) == {own} + Leftovers(r, port, kind);
  }

  /** Every consumer of the bound port is called exactly once per event. */
  ghost predicate ExactlyOnce(r: Router) {
    r.bound.Some? ==> forall kind :: |Forwarding(r, r.bound.value, kind)| == 1
  }

  /** Exactly-once delivery after a new binding, precisely when the port carries no leftover. */
  lemma ExactlyOnceIff(r: Router, engine: EngineId, port: Port, fault: AttachFault, stuckOld: set<nat>, stuckNew: set<nat>)
    requires Inv(r) && !AlreadyBound(r, engine, port) && AttachSucceeds(fault)
    ensures ExactlyOnce(Rebound(r, engine, port, fault, stuckOld, stuckNew)) <==> Clean(r, port)
  {
    var b := Rebound(r, engine, port, fault, stuckOld, stuckNew);
    forall kind
      ensures |Forwarding(b, port, kind)| == 1 <==> Leftovers(r, port, kind) == {}
    {
      BindForwards(r, engine, port, fault, stuckOld, stuckNew, kind);
    }
  }

  /** Every new binding of the run targets a port without leftovers. */
  ghost predicate CleanRun(ops: seq<Op>) {
    forall i :: 0 <= i < |ops| && ops[i].DoBind? && !AlreadyBound(After(ops[..i]), ops[i].engine, ops[i].port) ==>
      Clean(After(ops[..i]), ops[i].port)
  }

  lemma ApplyKeepsExactlyOnce(r: Router, op: Op)
    requires Inv(r) && ExactlyOnce(r)
    requires op.DoBind? && !AlreadyBound(r, op.engine, op.port) ==> Clean(r, op.port)
    ensures ExactlyOnce(Apply(r, op))
  {
    match op
    case DoBind(engine, port, fault, stuckOld, stuckNew) =>
      if !AlreadyBound(r, engine, port) && AttachSucceeds(fault) {
        ExactlyOnceIff(r, engine, port, fault, stuckOld, stuckNew);
      }
    case DoUnbind(_) =>
    case DoSubscribe(_, _) =>
      SameForwarding(r, Apply(r, op));
    case DoUnsubscribe(_, _) =>
      SameForwarding(r, Apply(r, op));
  }

  lemma SameForwarding(r: Router, r': Router)
    requires r'.registered == r.registered && r'.bound == r.bound && r'.generation == r.generation
    ensures forall port, kind :: Forwarding(r', port, kind) == Forwarding(r, port, kind)
  {
  }

  /** Over every such run, each event of the bound port reaches each subscribed consumer
      exactly once: one callback forwards it, to a list without repetition. */
  lemma {:induction false} DeliveredExactlyOnce(ops: seq<Op>, kind: Kind)
    requires CleanRun(ops)
    ensures ExactlyOnce(After(ops)) && Distinct(ConsumersOf(After(ops), kind))
  {
    RunKeepsInv(ops);
    if ops != [] {
      var before := ops[..|ops| - 1];
      forall i | 0 <= i < |before| && before[i].DoBind? && !AlreadyBound(After(before[..i]), before[i].engine, before[i].port)
        ensures Clean(After(before[..i]), before[i].port)
      {
        assert before[..i] == ops[..i];
      }
      DeliveredExactlyOnce(before, kind);
      RunKeepsInv(before);
      ApplyKeepsExactlyOnce(After(before), ops[|ops| - 1]);
    }
  }

  /** The last thing the run asked for consumer `c` of this kind is a subscription. */
  ghost predicate Listening(ops: seq<Op>, kind: Kind, c: Consumer) {
    exists i :: 0 <= i < |ops| && ops[i] == DoSubscribe(kind, c)
                && forall j :: i < j < |ops| ==> ops[j] != DoUnsubscribe(kind, c)
  }

  /** One operation and the consumers of a kind: a subscription adds one at the end, if it is
      new, and drops nobody; an unsubscription takes out that one and keeps the order of the
      others; nothing else touches the list. */
  lemma ConsumersAfter(r: Router, op: Op, kind: Kind)
    requires Inv(r)
    ensures var was, now := ConsumersOf(r, kind), ConsumersOf(Apply(r, op), kind);
            if op.DoSubscribe? && op.kind == kind && op.consumer !in was then now == was + [op.consumer]
            else if op.DoUnsubscribe? && op.kind == kind && op.consumer in was then
              exists a, b :: was == a + [op.consumer] + b && now == a + b && op.consumer !in now
            else now == was
  {
    if op.DoUnsubscribe? && op.kind == kind && op.consumer in ConsumersOf(r, kind) {
      WithoutIsDistinct(ConsumersOf(r, kind), op.consumer);
      var a, b := WithoutSplits(ConsumersOf(r, kind), op.consumer);
      assert ConsumersOf(Apply(r, op), kind) == a + b;
    }
  }

  lemma {:induction false} WithoutSplits(cs: seq<Consumer>, c: Consumer) returns (a: seq<Consumer>, b: seq<Consumer>)
    requires c in cs
    ensures cs == a + [c] + b && Without(cs, c) == a + b
  {
    if cs[0] == c {
      a, b := [], cs[1..];
    } else {
      var rest: seq<Consumer>;
      rest, b := WithoutSplits(cs[1..], c);
      a := [cs[0]] + rest;
    }
  }

  /** Over every run, whatever is bound or fails in between, the consumers that a forwarded event
      reaches are exactly those that subscribed and have not unsubscribed since. */
  lemma {:induction false} ReachedIff(ops: seq<Op>, kind: Kind, c: Consumer)
    ensures c in ConsumersOf(After(ops), kind) <==> Listening(ops, kind, c)
  {
    hide Apply, ConsumersOf, Inv;
    if ops == [] {
      NobodyYet(kind);
    } else {
      var before, op := ops[..|ops| - 1], ops[|ops| - 1];
      ReachedIff(before, kind, c);
      RunKeepsInv(before);
      ConsumersAfter(After(before), op, kind);
      ListeningNext(ops, kind, c);
    }
  }

  lemma NobodyYet(kind: Kind)
    ensures ConsumersOf(After([]), kind) == []
  {
  }

  lemma ListeningNext(ops: seq<Op>, kind: Kind, c: Consumer)
    requires ops != []
    ensures var before, op := ops[..|ops| - 1], ops[|ops| - 1];
            Listening(ops, kind, c) <==>
              op == DoSubscribe(kind, c) || (op != DoUnsubscribe(kind, c) && Listening(before, kind, c))
  {
    var n := |ops| - 1;
    if Listening(ops[..n], kind, c) && ops[n] != DoUnsubscribe(kind, c) {
      var i :| 0 <= i < n && ops[..n][i] == DoSubscribe(kind, c) && forall j :: i < j < n ==> ops[..n][j] != DoUnsubscribe(kind, c);
      assert ops[i] == DoSubscribe(kind, c);
      forall j | i < j < |ops|
        ensures ops[j] != DoUnsubscribe(kind, c)
      {
        if j < n {
          assert ops[..n][j] == ops[j];
        }
      }
    }
    if Listening(ops, kind, c) && ops[n] != DoSubscribe(kind, c) {
      var i :| 0 <= i < |ops| && ops[i] == DoSubscribe(kind, c) && forall j :: i < j < |ops| ==> ops[j] != DoUnsubscribe(kind, c);
      assert ops[..n][i] == DoSubscribe(kind, c);
    }
  }

  /** The attach raises before it registers anything that its rollback does not take off again. */
  predicate RollsBack(fault: AttachFault, stuckNew: set<nat>)
    requires fault.FailsAt?
  {
    !fault.registers && (fault.at == 0 || stuckNew == {})
  }

  /** The ports of attaches that failed and were not rolled back, since the last one that
      succeeded. */
  function Suspects(ops: seq<Op>): set<Port> {
    if ops == [] then {}
    else
      var before, op := Suspects(ops[..|ops| - 1]), ops[|ops| - 1];
      if !op.DoBind? then before
      else if AttachSucceeds(op.fault) then {}
      else if RollsBack(op.fault, op.stuckNew) then before
      else before + {op.port}
  }

  /** The callbacks that carry the generation of the next binding. */
  ghost predicate LeftOn(r: Router, ports: set<Port>) {
    && (forall w :: w in r.registered && w.generation == r.generation + 1 ==> w.port in ports)
    && (r.bound.Some? ==> forall w :: w in r.registered ==> w.generation <= r.generation)
  }

  lemma RolledBack(r: Router, engine: EngineId, port: Port, fault: AttachFault, stuckOld: set<nat>, stuckNew: set<nat>)
    requires Inv(r) && !AlreadyBound(r, engine, port) && !AttachSucceeds(fault) && RollsBack(fault, stuckNew)
    ensures Rebound(r, engine, port, fault, stuckOld, stuckNew).registered <= r.registered
  {
    var ws := NewWrappers(r.created, r.generation + 1, port);
    assert fault.at == 0 ==> ws[..fault.at] == [];
  }

  lemma BindLeaves(r: Router, engine: EngineId, port: Port, fault: AttachFault, stuckOld: set<nat>, stuckNew: set<nat>, ports: set<Port>)
    requires Inv(r) && LeftOn(r, ports)
    ensures var z := Rebound(r, engine, port, fault, stuckOld, stuckNew);
            if AttachSucceeds(fault) then LeftOn(z, {})
            else if RollsBack(fault, stuckNew) then LeftOn(z, ports)
            else LeftOn(z, ports + {port})
  {
    if AlreadyBound(r, engine, port) {
    } else if AttachSucceeds(fault) {
    } else if RollsBack(fault, stuckNew) {
      RolledBack(r, engine, port, fault, stuckOld, stuckNew);
    } else {
    }
  }

  lemma {:induction false} LeftOnSuspects(ops: seq<Op>)
    ensures LeftOn(After(ops), Suspects(ops))
  {
    hide LeftOn, Inv, Rebound;
    if ops == [] {
      NothingLeft();
    } else {
      var before, op := ops[..|ops| - 1], ops[|ops| - 1];
      LeftOnSuspects(before);
      RunKeepsInv(before);
      match op
      case DoBind(engine, port, fault, stuckOld, stuckNew) =>
        BindLeaves(After(before), engine, port, fault, stuckOld, stuckNew, Suspects(before));
      case DoUnbind(stuck) => UnbindLeaves(After(before), stuck, Suspects(before));
      case DoSubscribe(kind, c) => ConsumersLeave(After(before), op, Suspects(before));
      case DoUnsubscribe(kind, c) => ConsumersLeave(After(before), op, Suspects(before));
    }
  }

  lemma NothingLeft()
    ensures LeftOn(FRESH, {})
  {
  }

  lemma UnbindLeaves(r: Router, stuck: set<nat>, ports: set<Port>)
    requires LeftOn(r, ports)
    ensures LeftOn(Detached(r, stuck), ports)
  {
  }

  lemma ConsumersLeave(r: Router, op: Op, ports: set<Port>)
    requires LeftOn(r, ports) && (op.DoSubscribe? || op.DoUnsubscribe?)
    ensures LeftOn(Apply(r, op), ports)
  {
  }

  /** A run is clean when no attach that was not rolled back is followed by a binding of the same
      port before another one has succeeded. */
  lemma CautiousRunIsClean(ops: seq<Op>)
    requires forall i :: 0 <= i < |ops| && ops[i].DoBind? ==> ops[i].port !in Suspects(ops[..i])
    ensures CleanRun(ops)
  {
    hide After;
    forall i | 0 <= i < |ops| && ops[i].DoBind?
      ensures Clean(After(ops[..i]), ops[i].port)
    {
      LeftOnSuspects(ops[..i]);
    }
  }

  /** What an unbind leaves on the lists: callbacks of other bindings, and its own ones whose
      unsubscription raised. */
  lemma UnbindLeavesIff(r: Router, stuck: set<nat>, w: Wrapper)
    requires Inv(r)
    ensures w in Detached(r, stuck).registered <==> w in r.registered && (w !in r.wrappers || w.id in stuck)
  {
  }

  lemma UnhookedIff(r: Router, stuck: set<nat>, w: Wrapper)
    ensures w in Unhooked(r, stuck).registered <==> w in r.registered && (w !in r.wrappers || w.id in stuck)
  {
  }

  lemma AttachedIff(d: Router, port: Port, at: nat, registers: bool, w: Wrapper)
    requires at < 6
    ensures var a := Attached(d, d.generation + 1, port, FailsAt(at, registers));
            && (w in a.wrappers <==>
                  exists i :: 0 <= i < at && w == Wrapper(d.created + i, KINDS[i], d.generation + 1, port))
            && (w in a.registered <==>
                  w in d.registered || w in a.wrappers || (registers && w == Wrapper(d.created + at, KINDS[at], d.generation + 1, port)))
  {
    var ws := NewWrappers(d.created, d.generation + 1, port);
    if w in ws[..at] {
      var i :| 0 <= i < at && ws[..at][i] == w;
    }
    if i :| 0 <= i < at && w == Wrapper(d.created + i, KINDS[i], d.generation + 1, port) {
      assert ws[..at][i] == w;
    }
  }

  /** What a failed bind leaves on the lists besides: of the callbacks before the one that raised
      those whose unsubscription raised, and that one if it had been registered. */
  lemma FailedBindLeavesIff(r: Router, engine: EngineId, port: Port, at: nat, registers: bool, stuckOld: set<nat>, stuckNew: set<nat>,
                            w: Wrapper)
    requires Inv(r) && !AlreadyBound(r, engine, port) && at < 6
    ensures w in Rebound(r, engine, port, FailsAt(at, registers), stuckOld, stuckNew).registered <==>
              || (w in r.registered && (w !in r.wrappers || w.id in stuckOld))
              || (registers && w == Wrapper(r.created + at, KINDS[at], r.generation + 1, port))
              || (w.id in stuckNew && exists i :: 0 <= i < at && w == Wrapper(r.created + i, KINDS[i], r.generation + 1, port))
  {
    hide Inv, Unhooked, Attached, Detached;
    UnbindLeavesIff(r, stuckOld, w);
    CreatedLater(r, w);
    var d := Detached(r, stuckOld).(bound := Some(port), engine := Some(engine));
    DetachKeeps(r, stuckOld);
    AttachedIff(d, port, at, registers, w);
    UnhookedIff(Attached(d, d.generation + 1, port, FailsAt(at, registers)), stuckNew, w);
  }

  lemma DetachKeeps(r: Router, stuck: set<nat>)
    ensures Detached(r, stuck).created == r.created && Detached(r, stuck).generation == r.generation
  {
  }

  lemma CreatedLater(r: Router, w: Wrapper)
    requires Inv(r)
    ensures w in r.registered || w in r.wrappers ==> w.id < r.created
  {
  }

  lemma RaisingWrapperStays(d: Router, port: Port, at: nat, stuck: set<nat>)
    requires at < 6
    ensures var w := NewWrappers(d.created, d.generation + 1, port)[at];
            w in Unhooked(Attached(d, d.generation + 1, port, FailsAt(at, true)), stuck).registered
  {
    var ws := NewWrappers(d.created, d.generation + 1, port);
    forall w | w in ws[..at]
      ensures w != ws[at]
    {
      assert w.id < d.created + at;
    }
  }

  /** A subscription that registers its callback and then raises leaves it behind: the failed
      attach unsubscribes only the ones before it. */
  lemma RaisingSubscriptionIsLeft(r: Router, engine: EngineId, port: Port, at: nat, stuckOld: set<nat>, stuckNew: set<nat>)
    requires Inv(r) && !AlreadyBound(r, engine, port) && at < 6
    ensures Leftovers(Rebound(r, engine, port, FailsAt(at, true), stuckOld, stuckNew), port, KINDS[at]) != {}
  {
    hide Inv, Unhooked, Attached, Detached;
    var d := Detached(r, stuckOld).(bound := Some(port), engine := Some(engine));
    RaisingWrapperStays(d, port, at, stuckNew);
    FailureKeepsGeneration(d, port, at, stuckNew);
    var failed := Rebound(r, engine, port, FailsAt(at, true), stuckOld, stuckNew);
    assert NewWrappers(d.created, d.generation + 1, port)[at] in Leftovers(failed, port, KINDS[at]);
  }

  lemma FailureKeepsGeneration(d: Router, port: Port, at: nat, stuck: set<nat>)
    ensures Unhooked(Attached(d, d.generation + 1, port, FailsAt(at, true)), stuck).generation == d.generation
  {
  }

  /** ... and binding the same port next forwards the event of that kind more than once. */
  lemma LeftoverDeliversTwice(r: Router, engine: EngineId, port: Port, at: nat, stuckOld: set<nat>, stuckNew: set<nat>)
    requires Inv(r) && !AlreadyBound(r, engine, port) && at < 6
    ensures var failed := Rebound(r, engine, port, FailsAt(at, true), stuckOld, stuckNew);
            |Forwarding(Rebound(failed, engine, port, NoFault, {}, {}), port, KINDS[at])| >= 2
  {
    var failed := Rebound(r, engine, port, FailsAt(at, true), stuckOld, stuckNew);
    BindKeepsInv(r, engine, port, FailsAt(at, true), stuckOld, stuckNew);
    RaisingSubscriptionIsLeft(r, engine, port, at, stuckOld, stuckNew);
    BindForwards(failed, engine, port, NoFault, {}, {}, KINDS[at]);
  }
}
