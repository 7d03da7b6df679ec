/** Generations over whole runs: the same generation read twice means nothing changed between. */
module DeviceHistory {
  import opened Wrappers
  import opened DeviceObservations
  import opened DeviceRegistry
  import opened TextOrder

  // ---------------------------------------------------------------------------
  // Evolution of one device
  // ---------------------------------------------------------------------------

  ghost predicate SameTopology(a: Record, b: Record) {
    a.available == b.available && Keys(a.bindings) == Keys(b.bindings)
  }

  /** A record keeps its generation only with its topology; a new generation is a fresh one. */
  ghost predicate Evolves(r: Registry, s: Registry) {
    && r.generation <= s.generation
    && forall id :: id in r.records ==>
         && id in s.records
         && (if s.records[id].generation == r.records[id].generation then SameTopology(r.records[id], s.records[id])
             else s.records[id].generation > r.generation)
  }

  lemma EvolvesTransitive(a: Registry, b: Registry, c: Registry)
    requires Valid(a) && Valid(b) && Evolves(a, b) && Evolves(b, c)
    ensures Evolves(a, c)
  {
    hide Keys;
    forall id | id in a.records
      ensures id in c.records
      ensures if c.records[id].generation == a.records[id].generation then SameTopology(a.records[id], c.records[id])
              else c.records[id].generation > a.generation
    {
      assert id in b.records;
      assert a.records[id].generation <= a.generation && b.records[id].generation <= b.generation;
    }
  }

  lemma EnterEvolves(r: Registry, id: Id, record: Record, generation: nat)
    requires Valid(r)
    requires (generation == r.generation && id in r.records && record.generation == r.records[id].generation
              && SameTopology(r.records[id], record))
             || (record.generation == generation == r.generation + 1)
    ensures Evolves(r, Enter(r, id, record, generation))
  {
    hide Keys;
  }

  lemma ActedEvolves(r: Registry, a: Act)
    requires Valid(r) && ActOk(a)
    ensures Evolves(r, Acted(r, a))
  {
    hide Enter, Keys, Evolves, Valid;
    if a.Admit? {
      var changed := SetChanged(r, a.id, a.bindings);
      var g := if changed then r.generation + 1 else r.records[a.id].generation;
      var record := Record(a.identity, true, g, Stamped(a.bindings, g), a.captureCapable);
      if !changed {
        UnchangedAdmission(r, a);
      }
      EnterEvolves(r, a.id, record, if changed then r.generation + 1 else r.generation);
    } else if a.id in r.records {
      var c := Recaptured(r, a.id, a.captureCapable);
      EnterEvolves(r, a.id, r.records[a.id].(captureCapable := a.captureCapable), r.generation);
      if r.records[a.id].available || r.records[a.id].bindings != [] {
        RecapturedKeepsValid(r, a.id, a.captureCapable);
        DisconnectedEvolves(c, a.id);
        EvolvesTransitive(r, c, Disconnected(c, a.id));
      }
    } else {
      EvolvesReflexive(r);
    }
  }

  /** An admission that keeps the generation finds every observed binding available. */
  lemma UnchangedAdmission(r: Registry, a: Act)
    requires Valid(r) && a.Admit? && ActOk(a) && !SetChanged(r, a.id, a.bindings)
    ensures r.records[a.id].available
    ensures Keys(Stamped(a.bindings, r.records[a.id].generation)) == Keys(r.records[a.id].bindings)
  {
    hide Enter;
    var stored := r.records[a.id].bindings;
    assert Keys(stored) == Keys(a.bindings);
    assert |KeyList(stored)| == |multiset(KeyList(stored))| == |KeyList(a.bindings)|;
    forall i | 0 <= i < |a.bindings|
      ensures a.bindings[i].currentlyAvailable
    {
      assert KeyList(a.bindings)[i] in Keys(stored);
      assert KeyList(a.bindings)[i] in KeyList(stored);
    }
    StampedKeysIff(a.bindings, r.records[a.id].generation);
  }

  lemma EvolvesReflexive(r: Registry)
    ensures Evolves(r, r)
  {
  }

  lemma DisconnectedEvolves(r: Registry, id: Id)
    requires Valid(r) && id in r.records
    ensures Evolves(r, Disconnected(r, id))
  {
    EnterEvolves(r, id, r.records[id].(available := false, bindings := [], generation := r.generation + 1), r.generation + 1);
  }

  lemma {:induction false} ActedAllEvolves(r: Registry, acts: seq<Act>)
    requires Valid(r) && ActsOk(acts)
    ensures Evolves(r, ActedAll(r, acts))
  {
    hide Valid, Acted, Evolves;
    if acts == [] {
      EvolvesReflexive(r);
    } else {
      var s := ActedAll(r, acts[..|acts| - 1]);
      ActedAllEvolves(r, acts[..|acts| - 1]);
      ActedAllKeepsValid(r, acts[..|acts| - 1]);
      ActedEvolves(s, acts[|acts| - 1]);
      ActedKeepsValid(s, acts[|acts| - 1]);
      EvolvesTransitive(r, s, Acted(s, acts[|acts| - 1]));
    }
  }

  lemma {:induction false} SweptEvolves(r: Registry, order: seq<Id>, gone: set<Id>, n: nat)
    requires n <= |order| && Valid(r)
    ensures Evolves(r, Swept(r, order, gone, n))
  {
    hide Valid, Disconnected, Evolves;
    if n == 0 {
      EvolvesReflexive(r);
    } else {
      var s := Swept(r, order, gone, n - 1);
      SweptEvolves(r, order, gone, n - 1);
      SweptKeepsValid(r, order, gone, n - 1);
      if order[n - 1] in gone && order[n - 1] in s.records {
        DisconnectedEvolves(s, order[n - 1]);
        DisconnectedKeepsValid(s, order[n - 1]);
        EvolvesTransitive(r, s, Disconnected(s, order[n - 1]));
      }
    }
  }

  // ---------------------------------------------------------------------------
  // Operations and runs
  // ---------------------------------------------------------------------------

  /** The devices a physical removal takes away. */
  function OnPath(r: Registry, path: string): set<Id> {
    set id | id in Available(r) && r.records[id].identity.physicalPath == Some(path)
  }

  datatype Operation = Rescan(acts: seq<Act>) | Added(acts: seq<Act>) | Removed(path: string)

  ghost predicate OperationOk(op: Operation) {
    !op.Removed? ==> ActsOk(op.acts)
  }

  function Operated(r: Registry, op: Operation): Registry {
    match op
    case Rescan(acts) => Ingested(r, acts)
    case Added(acts) => ActedAll(r, acts)
    case Removed(path) => Swept(r, r.order, OnPath(r, path), |r.order|)
  }

  /** The registry after the first `n` operations. */
  function At(r: Registry, ops: seq<Operation>, n: nat): Registry
    requires n <= |ops|
  {
    if n == 0 then r else Operated(At(r, ops, n - 1), ops[n - 1])
  }

  ghost predicate RunOk(ops: seq<Operation>) {
    forall i :: 0 <= i < |ops| ==> OperationOk(ops[i])
  }

  lemma OperatedEvolves(r: Registry, op: Operation)
    requires Valid(r) && OperationOk(op)
    ensures Valid(Operated(r, op)) && Evolves(r, Operated(r, op))
  {
    hide Valid, Evolves, Swept, ActedAll;
    match op
    case Rescan(acts) =>
      var s := ActedAll(r, acts);
      var gone := Available(s) - Seen(acts).Keys;
      ActedAllEvolves(r, acts);
      ActedAllKeepsValid(r, acts);
      SweptEvolves(s, s.order, gone, |s.order|);
      SweptKeepsValid(s, s.order, gone, |s.order|);
      EvolvesTransitive(r, s, Ingested(r, acts));
    case Added(acts) =>
      ActedAllEvolves(r, acts);
      ActedAllKeepsValid(r, acts);
    case Removed(path) =>
      SweptEvolves(r, r.order, OnPath(r, path), |r.order|);
      SweptKeepsValid(r, r.order, OnPath(r, path), |r.order|);
  }

  /** Over every run, from the empty registry or any valid one. */
  lemma {:induction false} RunEvolves(r: Registry, ops: seq<Operation>, i: nat, j: nat)
    requires Valid(r) && RunOk(ops) && i <= j <= |ops|
    ensures Valid(At(r, ops, i)) && Valid(At(r, ops, j)) && Evolves(At(r, ops, i), At(r, ops, j))
    decreases j, i
  {
    hide Valid, Evolves, Operated;
    if j == 0 {
      EvolvesReflexive(r);
    } else {
      RunEvolves(r, ops, if i == j then j - 1 else i, j - 1);
      OperatedEvolves(At(r, ops, j - 1), ops[j - 1]);
      if i == j {
        EvolvesReflexive(At(r, ops, j));
      } else {
        EvolvesTransitive(At(r, ops, i), At(r, ops, j - 1), At(r, ops, j));
      }
    }
  }

  /** A physical removal takes exactly the devices that were available on its path, each under
      a fresh generation; every other record is what it was. */
  lemma RemovedRecords(r: Registry, path: string, id: Id)
    requires Valid(r)
    ensures Operated(r, Removed(path)).records.Keys == r.records.Keys
    ensures id in r.records && r.records[id].available && r.records[id].identity.physicalPath == Some(path) ==>
              LostSince(r.generation, r.records[id], Operated(r, Removed(path)).records[id])
    ensures id in r.records && !(r.records[id].available && r.records[id].identity.physicalPath == Some(path)) ==>
              Operated(r, Removed(path)).records[id] == r.records[id]
  {
    hide Swept, LostSince;
    SweptRecords(r, r.order, OnPath(r, path), |r.order|);
    if id in r.records {
      assert id in r.order;
    }
  }

  function GenerationFor(r: Registry, id: Id): Option<nat> {
    if id in r.records then Some(r.records[id].generation) else None
  }

  /** `apply_probe_result`: is a result obtained at `generation` still about the same device? */
  predicate Accepts(r: Registry, id: Id, generation: nat) {
    GenerationFor(r, id) == Some(generation)
  }

  /** A probe started when the device had `generation` and accepted at any later time ran
      while the availability and the binding set of the device never changed. */
  lemma AcceptedMeansUnchanged(r: Registry, ops: seq<Operation>, id: Id, i: nat, k: nat, j: nat)
    requires Valid(r) && RunOk(ops) && i <= k <= j <= |ops|
    requires id in At(r, ops, i).records
    requires Accepts(At(r, ops, j), id, At(r, ops, i).records[id].generation)
    ensures id in At(r, ops, k).records && SameTopology(At(r, ops, i).records[id], At(r, ops, k).records[id])
    ensures At(r, ops, k).records[id].generation == At(r, ops, i).records[id].generation
  {
    hide SameTopology;
    RunEvolves(r, ops, i, k);
    RunEvolves(r, ops, k, j);
  }

  // ---------------------------------------------------------------------------
  // Published changes
  // ---------------------------------------------------------------------------

  datatype Topology = Topology(available: bool, generation: nat, bindings: seq<Binding>)

  function TopologyOf(r: Registry, id: Id): Topology {
    if id in r.records then Topology(r.records[id].available, r.records[id].generation, r.records[id].bindings)
    else Topology(false, 0, [])
  }

  ghost predicate Alike(a: Topology, b: Topology) {
    a.available == b.available && a.generation == b.generation && Keys(a.bindings) == Keys(b.bindings)
  }

  predicate Differs(a: Topology, b: Topology) {
    a.available != b.available || a.generation != b.generation || Keys(a.bindings) != Keys(b.bindings)
  }

  datatype Change = Change(id: Id, previous: Topology, current: Topology)

  /** One change per device that differs, over the first `n` of `ids`. */
  function Changes(before: Registry, after: Registry, ids: seq<Id>, n: nat): seq<Change>
    requires n <= |ids|
  {
    if n == 0 then []
    else
      var id := ids[n - 1];
      var rest := Changes(before, after, ids, n - 1);
      if Differs(TopologyOf(before, id), TopologyOf(after, id)) then
        rest + [Change(id, TopologyOf(before, id), TopologyOf(after, id))]
      else rest
  }

  /** What the observers are told, in the order of identities. */
  function Published(before: Registry, after: Registry): seq<Change> {
    var ids := Sorted(after.order);
    Changes(before, after, ids, |ids|)
  }

  lemma {:induction false} ChangesAmong(before: Registry, after: Registry, ids: seq<Id>, n: nat, i: nat) returns (k: nat)
    requires n <= |ids| && i < |Changes(before, after, ids, n)|
    ensures k < n && ids[k] == Changes(before, after, ids, n)[i].id
    ensures i > 0 ==> exists l :: 0 <= l < k && ids[l] == Changes(before, after, ids, n)[i - 1].id
  {
    hide Differs, TopologyOf;
    var rest := Changes(before, after, ids, n - 1);
    if i < |rest| {
      k := ChangesAmong(before, after, ids, n - 1, i);
    } else {
      k := n - 1;
      if i > 0 {
        var l := ChangesAmong(before, after, ids, n - 1, i - 1);
      }
    }
  }

  /** The changes of one operation are published in ascending order of identities. */
  lemma PublishedInOrder(before: Registry, after: Registry, i: nat)
    requires i + 1 < |Published(before, after)|
    ensures !Before(Published(before, after)[i + 1].id, Published(before, after)[i].id)
  {
    hide Changes, Sorted, Before;
    var ids := Sorted(after.order);
    SortedIsSorted(after.order, "");
    var k := ChangesAmong(before, after, ids, |ids|, i + 1);
    var l :| 0 <= l < k && ids[l] == Changes(before, after, ids, |ids|)[i].id;
  }

  /** A device is published exactly when its generation grew. */
  lemma PublishedIffGrown(before: Registry, after: Registry, id: Id)
    requires Valid(before) && Valid(after) && Evolves(before, after) && id in after.records
    ensures Differs(TopologyOf(before, id), TopologyOf(after, id))
            <==> TopologyOf(after, id).generation > TopologyOf(before, id).generation
  {
    hide Keys;
    if id in before.records {
      assert before.records[id].generation <= before.generation;
    }
  }

  /** Whatever raised the generation of the registry is still in it, under that generation. */
  ghost predicate Topped(before: Registry, after: Registry) {
    || after.generation == before.generation
    || exists id :: id in after.records && after.records[id].generation == after.generation
  }

  lemma DisconnectedTops(before: Registry, r: Registry, id: Id)
    requires id in r.records
    ensures Topped(before, Disconnected(r, id))
  {
    var z := Disconnected(r, id);
    assert id in z.records && z.records[id].generation == z.generation;
  }

  lemma EnterTops(before: Registry, r: Registry, id: Id, record: Record, generation: nat)
    requires Topped(before, r)
    requires record.generation == generation || (generation == r.generation && id in r.records && record.generation == r.records[id].generation)
    ensures Topped(before, Enter(r, id, record, generation))
  {
    var z := Enter(r, id, record, generation);
    if record.generation == generation {
      assert id in z.records && z.records[id].generation == z.generation;
    } else if r.generation != before.generation {
      var top :| top in r.records && r.records[top].generation == r.generation;
      assert top in z.records && z.records[top].generation == z.generation;
    }
  }

  lemma ActedTops(before: Registry, r: Registry, a: Act)
    requires Topped(before, r)
    ensures Topped(before, Acted(r, a))
  {
    hide Topped, Enter, Keys;
    if a.Admit? {
      var g := if SetChanged(r, a.id, a.bindings) then r.generation + 1 else r.records[a.id].generation;
      var record := Record(a.identity, true, g, Stamped(a.bindings, g), a.captureCapable);
      EnterTops(before, r, a.id, record, if SetChanged(r, a.id, a.bindings) then r.generation + 1 else r.generation);
    } else if a.id in r.records {
      EnterTops(before, r, a.id, r.records[a.id].(captureCapable := a.captureCapable), r.generation);
      RecapturedHas(r, a.id, a.captureCapable);
      DisconnectedTops(before, Recaptured(r, a.id, a.captureCapable), a.id);
    }
  }

  lemma RecapturedHas(r: Registry, id: Id, captureCapable: bool)
    requires id in r.records
    ensures id in Recaptured(r, id, captureCapable).records
  {
  }

  lemma {:induction false} ActedAllTops(r: Registry, acts: seq<Act>)
    ensures Topped(r, ActedAll(r, acts))
  {
    hide Acted;
    if acts != [] {
      ActedAllTops(r, acts[..|acts| - 1]);
      ActedTops(r, ActedAll(r, acts[..|acts| - 1]), acts[|acts| - 1]);
    }
  }

  lemma {:induction false} SweptTops(before: Registry, r: Registry, order: seq<Id>, gone: set<Id>, n: nat)
    requires n <= |order| && Topped(before, r)
    ensures Topped(before, Swept(r, order, gone, n))
  {
    hide Topped, Disconnected;
    if n > 0 {
      SweptTops(before, r, order, gone, n - 1);
      var s := Swept(r, order, gone, n - 1);
      if order[n - 1] in gone && order[n - 1] in s.records {
        DisconnectedTops(before, s, order[n - 1]);
      }
    }
  }

  lemma {:induction false} DifferingIsChanged(before: Registry, after: Registry, ids: seq<Id>, n: nat, id: Id)
    requires n <= |ids| && id in ids[..n] && Differs(TopologyOf(before, id), TopologyOf(after, id))
    ensures Changes(before, after, ids, n) != []
  {
    hide Differs, TopologyOf;
    if id != ids[n - 1] {
      DifferingIsChanged(before, after, ids, n - 1, id);
    }
  }

  /** A registry whose generation grew is announced. */
  lemma GrownIsPublished(before: Registry, after: Registry)
    requires Valid(before) && Valid(after) && Topped(before, after) && after.generation > before.generation
    ensures Published(before, after) != []
  {
    hide Keys, Sorted;
    var id :| id in after.records && after.records[id].generation == after.generation;
    var ids := Sorted(after.order);
    SortedIsSorted(after.order, id);
    assert ids[..|ids|] == ids;
    DifferingIsChanged(before, after, ids, |ids|, id);
  }

  /** The observers' copy of the registry after they applied the changes. */
  function Replayed(view: map<Id, Topology>, changes: seq<Change>): map<Id, Topology> {
    if changes == [] then view
    else Replayed(view, changes[..|changes| - 1])[changes[|changes| - 1].id := changes[|changes| - 1].current]
  }

  ghost predicate Shows(view: map<Id, Topology>, r: Registry, id: Id) {
    Alike(if id in view then view[id] else Topology(false, 0, []), TopologyOf(r, id))
  }

  lemma {:induction false} ReplayedUpTo(view: map<Id, Topology>, before: Registry, after: Registry, ids: seq<Id>, n: nat, id: Id)
    requires n <= |ids| && Shows(view, before, id)
    ensures var v := Replayed(view, Changes(before, after, ids, n));
            if Among(ids, n, id) then Shows(v, after, id) else Shows(v, before, id)
  {
    hide Keys, TopologyOf;
    if n > 0 {
      ReplayedUpTo(view, before, after, ids, n - 1, id);
      var rest := Changes(before, after, ids, n - 1);
      var next := ids[n - 1];
      var change := Change(next, TopologyOf(before, next), TopologyOf(after, next));
      assert Among(ids, n, id) <==> Among(ids, n - 1, id) || id == next;
      if Differs(TopologyOf(before, next), TopologyOf(after, next)) {
        assert (rest + [change])[..|rest|] == rest;
      } else {
        assert Alike(TopologyOf(before, next), TopologyOf(after, next));
      }
    }
  }

  /** Replaying the published changes on a view of the old registry gives one of the new. */
  lemma ReplayReachesSnapshot(view: map<Id, Topology>, before: Registry, after: Registry, id: Id)
    requires Valid(before) && Valid(after) && Evolves(before, after)
    requires Shows(view, before, id)
    ensures Shows(Replayed(view, Published(before, after)), after, id)
  {
    hide Keys, Sorted;
    var ids := Sorted(after.order);
    ReplayedUpTo(view, before, after, ids, |ids|, id);
    SortedIsSorted(after.order, id);
    if id in after.records {
      assert id in after.order;
    }
  }
}
