/** The device registry as a value: records with generations, and the acts a batch of
    observations amounts to. */
module DeviceRegistry {
  import opened Wrappers
  import opened DeviceObservations

  datatype Record = Record(identity: Identity, available: bool, generation: nat, bindings: seq<Binding>, captureCapable: bool)

  /** `order` lists the records in order of admission. */
  datatype Registry = Registry(records: map<Id, Record>, order: seq<Id>, generation: nat)

  const EMPTY := Registry(map[], [], 0)

  // ---------------------------------------------------------------------------
  // Binding sets
  // ---------------------------------------------------------------------------

  datatype BindingKey = BindingKey(kind: BindingKind, locator: string, card: int, pcm: int, subdevice: int,
                                   signature: string, available: bool)

  function Or(o: Option<int>): int {
    if o.Some? then o.value else -1
  }

  function KeyOf(b: Binding): BindingKey {
    BindingKey(b.kind, b.locator, Or(b.cardIndex), Or(b.pcmDevice), Or(b.pcmSubdevice), Text(b.signature), b.currentlyAvailable)
  }

  function KeyList(bs: seq<Binding>): (ks: seq<BindingKey>)
    ensures |ks| == |bs| && forall i :: 0 <= i < |bs| ==> ks[i] == KeyOf(bs[i])
  {
    seq(|bs|, i requires 0 <= i < |bs| => KeyOf(bs[i]))
  }

  /** The canonical set of bindings: incidental order does not matter. */
  function Keys(bs: seq<Binding>): multiset<BindingKey> {
    multiset(KeyList(bs))
  }

  /** Bindings as a record stores them. */
  function Stamped(bs: seq<Binding>, generation: nat): (r: seq<Binding>)
    ensures |r| == |bs|
    ensures forall i :: 0 <= i < |bs| ==> r[i] == bs[i].(generation := generation, currentlyAvailable := true)
  {
    seq(|bs|, i requires 0 <= i < |bs| => bs[i].(generation := generation, currentlyAvailable := true))
  }

  ghost predicate AllAvailable(bs: seq<Binding>) {
    forall i :: 0 <= i < |bs| ==> bs[i].currentlyAvailable
  }

  predicate Holds(bs: seq<Binding>, locator: string) {
    exists i :: 0 <= i < |bs| && bs[i].locator == locator
  }

  /** Storing a binding set leaves its key unchanged exactly when every binding was available. */
  lemma StampedKeysIff(bs: seq<Binding>, generation: nat)
    ensures Keys(Stamped(bs, generation)) == Keys(bs) <==> AllAvailable(bs)
  {
    var stamped := KeyList(Stamped(bs, generation));
    if AllAvailable(bs) {
      assert stamped == KeyList(bs);
    } else {
      var i :| 0 <= i < |bs| && !bs[i].currentlyAvailable;
      assert KeyList(bs)[i] in Keys(bs);
      forall k: BindingKey | k in multiset(stamped)
        ensures k.available
      {
      }
    }
  }

  lemma StampedTwice(bs: seq<Binding>, g: nat, h: nat)
    ensures Keys(Stamped(bs, g)) == Keys(Stamped(bs, h))
  {
    assert KeyList(Stamped(bs, g)) == KeyList(Stamped(bs, h));
  }

  lemma StampedHolds(bs: seq<Binding>, g: nat, locator: string)
    ensures Holds(Stamped(bs, g), locator) <==> Holds(bs, locator)
  {
    if Holds(bs, locator) {
      var i :| 0 <= i < |bs| && bs[i].locator == locator;
      assert Stamped(bs, g)[i].locator == locator;
    }
  }

  // ---------------------------------------------------------------------------
  // Acts
  // ---------------------------------------------------------------------------

  /** What one observation makes of the record it identifies: a playback device with the given
      endpoints, or a device without any. */
  datatype Act =
    | Admit(id: Id, identity: Identity, bindings: seq<Binding>, captureCapable: bool)
    | Vanish(id: Id, captureCapable: bool)

  function Enter(r: Registry, id: Id, record: Record, generation: nat): Registry {
    Registry(r.records[id := record], if id in r.records then r.order else r.order + [id], generation)
  }

  predicate SetChanged(r: Registry, id: Id, bindings: seq<Binding>) {
    id !in r.records || Keys(r.records[id].bindings) != Keys(bindings)
  }

  function Admitted(r: Registry, a: Act): Registry
    requires a.Admit?
  {
    var changed := SetChanged(r, a.id, a.bindings);
    var g := if changed then r.generation + 1 else r.records[a.id].generation;
    Enter(r, a.id, Record(a.identity, true, g, Stamped(a.bindings, g), a.captureCapable),
          if changed then r.generation + 1 else r.generation)
  }

  /** The device is gone: its record stays, unavailable, with a new generation. */
  function Disconnected(r: Registry, id: Id): Registry
    requires id in r.records
  {
    Enter(r, id, r.records[id].(available := false, bindings := [], generation := r.generation + 1), r.generation + 1)
  }

  function Recaptured(r: Registry, id: Id, captureCapable: bool): Registry
    requires id in r.records
  {
    Enter(r, id, r.records[id].(captureCapable := captureCapable), r.generation)
  }

  function Vanished(r: Registry, a: Act): Registry
    requires a.Vanish?
  {
    if a.id !in r.records then r
    else if r.records[a.id].available || r.records[a.id].bindings != [] then
      Disconnected(Recaptured(r, a.id, a.captureCapable), a.id)
    else Recaptured(r, a.id, a.captureCapable)
  }

  function Acted(r: Registry, a: Act): Registry {
    if a.Admit? then Admitted(r, a) else Vanished(r, a)
  }

  function ActedAll(r: Registry, acts: seq<Act>): Registry {
    if acts == [] then r else Acted(ActedAll(r, acts[..|acts| - 1]), acts[|acts| - 1])
  }

  /** The devices admitted by the acts, with the endpoints they end up with. */
  function Seen(acts: seq<Act>): map<Id, seq<Binding>> {
    if acts == [] then map[]
    else
      var seen := Seen(acts[..|acts| - 1]);
      var a := acts[|acts| - 1];
      if a.Admit? then seen[a.id := a.bindings]
      else if a.id in seen then seen[a.id := []]
      else seen
  }

  /** Disconnects the records of `gone` among the first `n`, in order. */
  function Swept(r: Registry, order: seq<Id>, gone: set<Id>, n: nat): Registry
    requires n <= |order|
  {
    if n == 0 then r
    else
      var s := Swept(r, order, gone, n - 1);
      if order[n - 1] in gone && order[n - 1] in s.records then Disconnected(s, order[n - 1]) else s
  }

  // ---------------------------------------------------------------------------
  // The invariant of a registry
  // ---------------------------------------------------------------------------

  ghost predicate RecordOk(record: Record) {
    && (record.available <==> record.bindings != [])
    && forall i :: 0 <= i < |record.bindings| ==>
         record.bindings[i].generation == record.generation && record.bindings[i].currentlyAvailable
  }

  ghost predicate OrderOk(r: Registry) {
    && (forall i :: 0 <= i < |r.order| ==> r.order[i] in r.records)
    && (forall id :: id in r.records ==> id in r.order)
    && (forall i, j :: 0 <= i < j < |r.order| ==> r.order[i] != r.order[j])
  }

  /** Bindings carry the generation of their record, generations are distinct, a record is
      available exactly when it has bindings. */
  ghost predicate Valid(r: Registry) {
    && OrderOk(r)
    && (forall id :: id in r.records ==> RecordOk(r.records[id]))
    && (forall id :: id in r.records ==> 0 < r.records[id].generation <= r.generation)
    && (forall a, b :: a in r.records && b in r.records && a != b ==> r.records[a].generation != r.records[b].generation)
  }

  ghost predicate ActOk(a: Act) {
    a.Admit? ==> a.bindings != []
  }

  ghost predicate ActsOk(acts: seq<Act>) {
    forall i :: 0 <= i < |acts| ==> ActOk(acts[i])
  }

  lemma EnterKeepsOrder(r: Registry, id: Id, record: Record, generation: nat)
    requires OrderOk(r)
    ensures OrderOk(Enter(r, id, record, generation))
  {
  }

  lemma EnterKeepsValid(r: Registry, id: Id, record: Record, generation: nat)
    requires Valid(r) && RecordOk(record)
    requires (generation == r.generation && id in r.records && record.generation == r.records[id].generation)
             || (record.generation == generation == r.generation + 1)
    ensures Valid(Enter(r, id, record, generation))
  {
    hide OrderOk, RecordOk;
    EnterKeepsOrder(r, id, record, generation);
  }

  lemma ActedKeepsValid(r: Registry, a: Act)
    requires Valid(r) && ActOk(a)
    ensures Valid(Acted(r, a))
  {
    hide Enter, Keys;
    if a.Admit? {
      var changed := SetChanged(r, a.id, a.bindings);
      var g := if changed then r.generation + 1 else r.records[a.id].generation;
      EnterKeepsValid(r, a.id, Record(a.identity, true, g, Stamped(a.bindings, g), a.captureCapable),
                      if changed then r.generation + 1 else r.generation);
    } else if a.id in r.records {
      RecapturedKeepsValid(r, a.id, a.captureCapable);
      if r.records[a.id].available || r.records[a.id].bindings != [] {
        DisconnectedKeepsValid(Recaptured(r, a.id, a.captureCapable), a.id);
      }
    }
  }

  lemma RecapturedKeepsValid(r: Registry, id: Id, captureCapable: bool)
    requires Valid(r) && id in r.records
    ensures Valid(Recaptured(r, id, captureCapable)) && id in Recaptured(r, id, captureCapable).records
  {
    EnterKeepsValid(r, id, r.records[id].(captureCapable := captureCapable), r.generation);
  }

  lemma DisconnectedKeepsValid(r: Registry, id: Id)
    requires Valid(r) && id in r.records
    ensures Valid(Disconnected(r, id))
  {
    EnterKeepsValid(r, id, r.records[id].(available := false, bindings := [], generation := r.generation + 1), r.generation + 1);
  }

  lemma {:induction false} ActedAllKeepsValid(r: Registry, acts: seq<Act>)
    requires Valid(r) && ActsOk(acts)
    ensures Valid(ActedAll(r, acts))
  {
    hide Valid, Acted;
    if acts != [] {
      ActedAllKeepsValid(r, acts[..|acts| - 1]);
      ActedKeepsValid(ActedAll(r, acts[..|acts| - 1]), acts[|acts| - 1]);
    }
  }

  lemma {:induction false} SweptKeepsValid(r: Registry, order: seq<Id>, gone: set<Id>, n: nat)
    requires n <= |order| && Valid(r)
    ensures Valid(Swept(r, order, gone, n))
  {
    hide Valid, Disconnected;
    if n > 0 {
      SweptKeepsValid(r, order, gone, n - 1);
      if order[n - 1] in gone && order[n - 1] in Swept(r, order, gone, n - 1).records {
        DisconnectedKeepsValid(Swept(r, order, gone, n - 1), order[n - 1]);
      }
    }
  }

  // ---------------------------------------------------------------------------
  // Full re-scan
  // ---------------------------------------------------------------------------

  function Available(r: Registry): set<Id> {
    set id | id in r.records && r.records[id].available
  }

  function Ingested(r: Registry, acts: seq<Act>): Registry {
    var s := ActedAll(r, acts);
    Swept(s, s.order, Available(s) - Seen(acts).Keys, |s.order|)
  }

  /** The record of a device is what the acts say of it, up to its generation. */
  ghost predicate Reflects(r: Registry, id: Id, bindings: seq<Binding>) {
    && id in r.records
    && (r.records[id].available <==> bindings != [])
    && r.records[id].bindings == Stamped(bindings, r.records[id].generation)
  }

  ghost predicate SeenReflected(r: Registry, seen: map<Id, seq<Binding>>) {
    forall id :: id in seen ==> Reflects(r, id, seen[id])
  }

  lemma ActedReflects(r: Registry, seen: map<Id, seq<Binding>>, a: Act)
    requires Valid(r) && ActOk(a) && SeenReflected(r, seen)
    ensures SeenReflected(Acted(r, a), if a.Admit? then seen[a.id := a.bindings] else if a.id in seen then seen[a.id := []] else seen)
  {
    hide Keys, Valid;
    var next := if a.Admit? then seen[a.id := a.bindings] else if a.id in seen then seen[a.id := []] else seen;
    forall id | id in next
      ensures Reflects(Acted(r, a), id, next[id])
    {
      if id != a.id {
        assert Reflects(r, id, seen[id]);
        assert Acted(r, a).records[id] == r.records[id];
      } else if a.Vanish? {
        assert Reflects(r, id, seen[id]);
        assert RecordOk(r.records[id]) by { ValidRecord(r, id); }
      }
    }
  }

  lemma ValidRecord(r: Registry, id: Id)
    requires Valid(r) && id in r.records
    ensures RecordOk(r.records[id])
  {
  }

  lemma {:induction false} ActedAllReflects(r: Registry, acts: seq<Act>)
    requires Valid(r) && ActsOk(acts)
    ensures SeenReflected(ActedAll(r, acts), Seen(acts))
  {
    hide Valid, Acted, Reflects;
    if acts != [] {
      ActedAllReflects(r, acts[..|acts| - 1]);
      ActedAllKeepsValid(r, acts[..|acts| - 1]);
      ActedReflects(ActedAll(r, acts[..|acts| - 1]), Seen(acts[..|acts| - 1]), acts[|acts| - 1]);
    }
  }

  predicate Among(order: seq<Id>, n: nat, id: Id)
    requires n <= |order|
  {
    exists i :: 0 <= i < n && order[i] == id
  }

  /** What is left of the record of a device that was lost after `generation`. */
  ghost predicate LostSince(generation: nat, was: Record, now: Record) {
    && !now.available && now.bindings == [] && now.generation > generation
    && now.identity == was.identity && now.captureCapable == was.captureCapable
  }

  lemma DisconnectedRecords(generation: nat, was: Record, s: Registry, id: Id, other: Id)
    requires id in s.records && other in s.records && generation <= s.generation
    ensures Disconnected(s, id).records.Keys == s.records.Keys && Disconnected(s, id).generation >= s.generation
    ensures other != id ==> Disconnected(s, id).records[other] == s.records[other]
    ensures s.records[id] == was || LostSince(generation, was, s.records[id]) ==>
              LostSince(generation, was, Disconnected(s, id).records[id])
  {
  }

  /** A sweep disconnects exactly the records it is asked to, and touches no other. */
  lemma {:induction false} SweptRecords(r: Registry, order: seq<Id>, gone: set<Id>, n: nat)
    requires n <= |order|
    ensures Swept(r, order, gone, n).generation >= r.generation
    ensures Swept(r, order, gone, n).records.Keys == r.records.Keys
    ensures forall id :: id in r.records ==>
              if id in gone && Among(order, n, id) then LostSince(r.generation, r.records[id], Swept(r, order, gone, n).records[id])
              else Swept(r, order, gone, n).records[id] == r.records[id]
  {
    hide LostSince, Disconnected;
    if n > 0 {
      SweptRecords(r, order, gone, n - 1);
      var s := Swept(r, order, gone, n - 1);
      var last := order[n - 1];
      forall id | id in r.records
        ensures Among(order, n, id) <==> id == last || Among(order, n - 1, id)
      {
      }
      if last in gone && last in s.records {
        forall id | id in r.records {
          DisconnectedRecords(r.generation, r.records[last], s, last, id);
        }
      }
    }
  }

  /** A re-scan leaves a registry that is a function of the batch alone, up to generations. */
  lemma IngestedReflects(r: Registry, acts: seq<Act>)
    requires Valid(r) && ActsOk(acts)
    ensures Valid(Ingested(r, acts))
    ensures SeenReflected(Ingested(r, acts), Seen(acts))
    ensures forall id :: id in Ingested(r, acts).records && id !in Seen(acts) ==> Reflects(Ingested(r, acts), id, [])
  {
    hide Swept, Acted;
    var s := ActedAll(r, acts);
    var seen := Seen(acts);
    var gone := Available(s) - seen.Keys;
    ActedAllKeepsValid(r, acts);
    ActedAllReflects(r, acts);
    SweptKeepsValid(s, s.order, gone, |s.order|);
    SweptRecords(s, s.order, gone, |s.order|);
    var z := Ingested(r, acts);
    forall id | id in seen
      ensures Reflects(z, id, seen[id])
    {
      assert Reflects(s, id, seen[id]);
    }
    forall id | id in z.records && id !in seen
      ensures Reflects(z, id, [])
    {
      if id in gone {
        assert id in s.order;
      } else {
        ValidRecord(s, id);
      }
    }
  }

  /** From any two registries, the same batch gives the same available devices with the same
      binding sets. */
  lemma HistoryIndependent(r1: Registry, r2: Registry, acts: seq<Act>)
    requires Valid(r1) && Valid(r2) && ActsOk(acts)
    ensures Available(Ingested(r1, acts)) == Available(Ingested(r2, acts))
    ensures forall id :: id in Available(Ingested(r1, acts)) ==>
              Keys(Ingested(r1, acts).records[id].bindings) == Keys(Ingested(r2, acts).records[id].bindings)
  {
    hide Ingested, Valid, Keys;
    var z1, z2 := Ingested(r1, acts), Ingested(r2, acts);
    IngestedReflects(r1, acts);
    IngestedReflects(r2, acts);
    var seen := Seen(acts);
    forall id
      ensures id in Available(z1) <==> id in seen && seen[id] != []
      ensures id in Available(z2) <==> id in seen && seen[id] != []
    {
      AvailableIff(z1, seen, id);
      AvailableIff(z2, seen, id);
    }
    forall id | id in Available(z1)
      ensures Keys(z1.records[id].bindings) == Keys(z2.records[id].bindings)
    {
      assert Reflects(z1, id, seen[id]) && Reflects(z2, id, seen[id]);
      StampedTwice(seen[id], z1.records[id].generation, z2.records[id].generation);
    }
  }

  lemma AvailableIff(z: Registry, seen: map<Id, seq<Binding>>, id: Id)
    requires SeenReflected(z, seen)
    requires id in z.records && id !in seen ==> Reflects(z, id, [])
    ensures id in Available(z) <==> id in seen && seen[id] != []
  {
    if id in seen {
      assert Reflects(z, id, seen[id]);
    }
  }
}
