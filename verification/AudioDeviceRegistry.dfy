/** The registry object and the coordinator that acts on its published changes. */
module AudioDeviceRegistry {
  import opened Wrappers
  import opened Decimals
  import opened DeviceObservations
  import opened DeviceRegistry
  import opened DeviceHistory
  import opened DeviceBatches
  import TextOrder

  class AudioDeviceRegistry {
    var records: map<Id, Record>
    var order: seq<Id>
    var generation: nat
    var selectedDeviceId: Option<Id>
    /** What the topology subscribers were told. */
    var published: seq<Change>

    function View(): Registry
      reads this
    {
      Registry(records, order, generation)
    }

    constructor ()
      ensures View() == EMPTY && selectedDeviceId.None? && published == []
    {
      records, order, generation := map[], [], 0;
      selectedDeviceId, published := None, [];
    }

    method SelectDevice(id: Option<Id>)
      modifies this`selectedDeviceId
      ensures selectedDeviceId == id
    {
      selectedDeviceId := id;
    }

    /** A rescan reconciles every device; the selection survives it. */
    method Ingest(os: seq<Observation>)
      requires Valid(View())
      modifies this`records, this`order, this`generation, this`published
      ensures Valid(View()) && View() == Ingested(old(View()), ActsOf(os))
      ensures published == old(published) + Published(old(View()), View())
    {
      ApplyObservations(os, true);
    }

    method HandleAdded(o: Observation)
      requires Valid(View())
      modifies this`records, this`order, this`generation, this`published
      ensures Valid(View()) && View() == ActedAll(old(View()), ActsOf([o]))
      ensures published == old(published) + Published(old(View()), View())
    {
      ApplyObservations([o], false);
    }

    method ApplyObservations(os: seq<Observation>, reconcile: bool)
      requires Valid(View())
      modifies this`records, this`order, this`generation, this`published
      ensures Valid(View())
      ensures View() == if reconcile then Ingested(old(View()), ActsOf(os)) else ActedAll(old(View()), ActsOf(os))
      ensures published == old(published) + Published(old(View()), View())
    {
      var before := View();
      var seen := UsbPass(os);
      seen := LocalPass(os, before, seen);
      PlanOk(os, |PlaybackOf(os)|);
      ActedAllKeepsValid(before, ActsOf(os));
      if reconcile {
        Sweep(Available(View()) - seen);
      }
      PublishTopologyChanges(before);
    }

    method CountSerials(usb: seq<Observation>) returns (counts: map<string, nat>)
      ensures forall s :: (if s in counts then counts[s] else 0) == SerialCount(usb, |usb|, s)
    {
      hide UsefulSerial;
      counts := map[];
      for i := 0 to |usb|
        invariant forall s :: (if s in counts then counts[s] else 0) == SerialCount(usb, i, s)
      {
        var serial := UsefulSerial(usb[i].serial);
        if serial.Some? {
          counts := counts[serial.value := (if serial.value in counts then counts[serial.value] else 0) + 1];
        }
      }
    }

    method NextGeneration() returns (g: nat)
      modifies this`generation
      ensures g == generation == old(generation) + 1
    {
      generation := generation + 1;
      g := generation;
    }

    method Store(id: Id, record: Record)
      modifies this`records, this`order
      ensures View() == Enter(old(View()), id, record, generation)
    {
      if id !in records {
        order := order + [id];
      }
      records := records[id := record];
    }

    method Publish(a: Act)
      requires a.Admit?
      modifies this`records, this`order, this`generation
      ensures View() == Admitted(old(View()), a)
    {
      hide Keys;
      var changed := SetChanged(View(), a.id, a.bindings);
      var g: nat;
      if changed {
        g := NextGeneration();
      } else {
        g := records[a.id].generation;
      }
      Store(a.id, Record(a.identity, true, g, Stamped(a.bindings, g), a.captureCapable));
    }

    method Disconnect(id: Id)
      requires id in records
      modifies this`records, this`order, this`generation
      ensures View() == Disconnected(old(View()), id)
    {
      var g := NextGeneration();
      Store(id, records[id].(available := false, bindings := [], generation := g));
    }

    method Lose(a: Act)
      requires a.Vanish?
      modifies this`records, this`order, this`generation
      ensures View() == Vanished(old(View()), a)
    {
      if a.id in records {
        var lost := records[a.id].available || records[a.id].bindings != [];
        Store(a.id, records[a.id].(captureCapable := a.captureCapable));
        if lost {
          Disconnect(a.id);
        }
      }
    }

    /** `_identity_for`, with the serial counts of the batch. */
    method IdentityFor(o: Observation, counts: map<string, nat>, taken: set<Id>, ghost usb: seq<Observation>) returns (id: Id)
      requires forall s :: (if s in counts then counts[s] else 0) == SerialCount(usb, |usb|, s)
      ensures id == Suffixed(BaseId(usb, o), taken)
    {
      hide UsefulSerial;
      var serial := UsefulSerial(o.serial);
      if serial.Some? && serial.value in counts && counts[serial.value] > 1 {
        serial := None;
      }
      if serial.Some? {
        id := "usb:" + Text(o.vendorId) + ":" + Text(o.productId) + ":" + serial.value;
      } else if Present(o.physicalPath) {
        id := "usb:" + Text(o.vendorId) + ":" + Text(o.productId) + ":" + o.physicalPath.value;
      } else {
        id := "sysfs:" + (if Present(o.product) then o.product.value else "usb");
      }
      if id in taken {
        id := id + "#" + Decimal(|taken|);
      }
    }

    method UsbStep(os: seq<Observation>, i: nat)
      requires i < |UsbOf(os)|
      modifies this`records, this`order, this`generation
      ensures View() == Acted(old(View()), UsbAct(os, i))
    {
      hide UsbAct, UsbOf, Admitted, Vanished;
      var a := UsbAct(os, i);
      if a.Vanish? {
        Lose(a);
      } else {
        Publish(a);
      }
    }

    method UsbPass(os: seq<Observation>) returns (seen: set<Id>)
      modifies this`records, this`order, this`generation
      ensures View() == ActedAll(old(View()), UsbPlan(os, |UsbOf(os)|))
      ensures seen == Seen(UsbPlan(os, |UsbOf(os)|)).Keys
    {
      hide Acted, ActedAll, Seen, UsbPlan, Suffixed, BaseId, UsbOf, UsbAct;
      var usb := UsbOf(os);
      ghost var r := View();
      NothingPlanned(r, os);
      var counts := CountSerials(usb);
      var taken: set<Id> := {};
      seen := {};
      for i := 0 to |usb|
        invariant taken == Taken(usb, i)
        invariant View() == ActedAll(r, UsbPlan(os, i))
        invariant seen == Seen(UsbPlan(os, i)).Keys
      {
        UsbPlanNext(r, os, i);
        var id := IdentityFor(usb[i], counts, taken, usb);
        UsbActOk(os, i);
        assert id == IdAt(usb, i) == UsbAct(os, i).id;
        taken := taken + {id};
        UsbStep(os, i);
        if UsbAct(os, i).Admit? {
          seen := seen + {id};
        }
      }
    }

    method LocalPass(os: seq<Observation>, ghost before: Registry, usbSeen: set<Id>) returns (seen: set<Id>)
      requires Valid(before) && View() == ActedAll(before, UsbPlan(os, |UsbOf(os)|))
      requires usbSeen == Seen(UsbPlan(os, |UsbOf(os)|)).Keys
      modifies this`records, this`order, this`generation
      ensures View() == ActedAll(before, ActsOf(os)) && seen == Seen(ActsOf(os)).Keys
    {
      hide UsbPlan, UsbOf, PlaybackOf, Admitted, Vanished, Seen, Valid;
      var playback := PlaybackOf(os);
      seen := usbSeen;
      for j := 0 to |playback|
        invariant View() == ActedAll(before, Plan(os, j))
        invariant seen == Seen(Plan(os, j)).Keys
      {
        var o := playback[j];
        var locator := o.binding.value.locator;
        PlanOk(os, j);
        StoredLocators(before, Plan(os, j), locator);
        if !(exists id :: id in seen && id in records && Holds(records[id].bindings, locator)) {
          SeenAfterLocal(Plan(os, j), o);
          assert (Plan(os, j) + [LocalAct(o)])[..|Plan(os, j)|] == Plan(os, j);
          Publish(LocalAct(o));
          seen := seen + {LocalId(locator)};
        }
      }
    }

    /** Disconnects the records of `gone`, in order of admission. */
    method Sweep(gone: set<Id>)
      requires Valid(View())
      modifies this`records, this`order, this`generation
      ensures Valid(View()) && View() == Swept(old(View()), old(order), gone, |old(order)|)
    {
      hide Valid, Disconnected;
      var ids := order;
      ghost var r := View();
      for n := 0 to |ids|
        invariant Valid(View()) && View() == Swept(r, ids, gone, n)
      {
        SweptKeepsValid(r, ids, gone, n + 1);
        if ids[n] in gone && ids[n] in records {
          Disconnect(ids[n]);
        }
      }
    }

    method HandleRemoved(path: string)
      requires Valid(View())
      modifies this`records, this`order, this`generation, this`published
      ensures Valid(View()) && View() == Operated(old(View()), Removed(path))
      ensures records.Keys == old(records.Keys)
      ensures forall id :: id in old(records) ==>
                if old(records)[id].available && old(records)[id].identity.physicalPath == Some(path) then
                  && !records[id].available && records[id].bindings == [] && records[id].generation > old(generation)
                  && records[id].identity == old(records)[id].identity
                else records[id] == old(records)[id]
      ensures published == old(published) + Published(old(View()), View())
    {
      var before := View();
      Sweep(OnPath(before, path));
      forall id {
        RemovedRecords(before, path, id);
      }
      PublishTopologyChanges(before);
    }

    method PublishTopologyChanges(before: Registry)
      modifies this`published
      ensures published == old(published) + Published(before, View())
    {
      hide Differs, TopologyOf, TextOrder.Sorted;
      var ids := TextOrder.Sorted(order);
      for n := 0 to |ids|
        invariant published == old(published) + Changes(before, View(), ids, n)
      {
        var previous, current := TopologyOf(before, ids[n]), TopologyOf(View(), ids[n]);
        if Differs(previous, current) {
          published := published + [Change(ids[n], previous, current)];
        }
      }
    }

    method ApplyProbeResult(id: Id, generation: nat) returns (accepted: bool)
      ensures accepted == Accepts(View(), id, generation)
    {
      accepted := id in records && generation == records[id].generation;
    }
  }

  lemma NothingPlanned(r: Registry, os: seq<Observation>)
    ensures ActedAll(r, UsbPlan(os, 0)) == r && Seen(UsbPlan(os, 0)).Keys == {}
  {
  }

  lemma UsbPlanNext(r: Registry, os: seq<Observation>, i: nat)
    requires i < |UsbOf(os)|
    ensures ActedAll(r, UsbPlan(os, i + 1)) == Acted(ActedAll(r, UsbPlan(os, i)), UsbAct(os, i))
    ensures var a := UsbAct(os, i);
            Seen(UsbPlan(os, i + 1)).Keys == Seen(UsbPlan(os, i)).Keys + (if a.Admit? then {a.id} else {})
  {
    hide Acted, UsbAct, UsbOf;
    assert UsbPlan(os, i + 1)[..i] == UsbPlan(os, i) && UsbPlan(os, i + 1)[i] == UsbAct(os, i);
  }

  /** Whether a locator is accounted for can be read off the stored records. */
  lemma StoredLocators(before: Registry, acts: seq<Act>, locator: string)
    requires Valid(before) && ActsOk(acts)
    ensures var r := ActedAll(before, acts);
            LocatorSeen(Seen(acts), locator) <==>
            exists id :: id in Seen(acts).Keys && id in r.records && Holds(r.records[id].bindings, locator)
  {
    hide Valid, Seen, Acted, Holds;
    var r := ActedAll(before, acts);
    var seen := Seen(acts);
    ActedAllReflects(before, acts);
    forall id | id in seen
      ensures id in r.records && (Holds(seen[id], locator) <==> Holds(r.records[id].bindings, locator))
    {
      assert Reflects(r, id, seen[id]);
      StampedHolds(seen[id], r.records[id].generation, locator);
    }
  }

  // ---------------------------------------------------------------------------
  // Acting on published changes
  // ---------------------------------------------------------------------------

  datatype LifecycleAction = Ignore | Converge(id: Id, generation: nat) | Rebind(id: Id, generation: nat)

  predicate PlaybackBinding(bs: seq<Binding>, generation: nat) {
    exists i :: 0 <= i < |bs| && bs[i].kind.AlsaPcm? && bs[i].currentlyAvailable && bs[i].generation == generation
  }

  /** What a change, delivered now, asks for; `lossApplies` is the session's word. */
  function ActionFor(r: Registry, c: Change, lossApplies: bool): LifecycleAction {
    if GenerationFor(r, c.id) != Some(c.current.generation) then Ignore
    else if (c.id in Available(r)) != c.current.available then Ignore
    else if !c.current.available then
      if lossApplies then Converge(c.id, c.current.generation) else Ignore
    else if PlaybackBinding(c.current.bindings, c.current.generation) then Rebind(c.id, c.current.generation)
    else Ignore
  }

  /** A delivered change acts exactly when the registry still says what the change says and
      either the device is gone and its loss concerns the session, or it can play. */
  lemma ActsIff(r: Registry, c: Change, lossApplies: bool)
    ensures var agrees := c.id in r.records && r.records[c.id].generation == c.current.generation
                          && r.records[c.id].available == c.current.available;
            var action := ActionFor(r, c, lossApplies);
            && (action == Converge(c.id, c.current.generation) <==> agrees && !c.current.available && lossApplies)
            && (action == Rebind(c.id, c.current.generation) <==>
                  agrees && c.current.available
                  && exists b :: b in c.current.bindings && b.kind == AlsaPcm && b.currentlyAvailable && b.generation == c.current.generation)
            && (action == Ignore || action == Converge(c.id, c.current.generation) || action == Rebind(c.id, c.current.generation))
  {
    if b :| b in c.current.bindings && b.kind == AlsaPcm && b.currentlyAvailable && b.generation == c.current.generation {
      var i :| 0 <= i < |c.current.bindings| && c.current.bindings[i] == b;
      assert PlaybackBinding(c.current.bindings, c.current.generation);
    }
    if PlaybackBinding(c.current.bindings, c.current.generation) {
      var i :| 0 <= i < |c.current.bindings| && c.current.bindings[i].kind.AlsaPcm? && c.current.bindings[i].currentlyAvailable
               && c.current.bindings[i].generation == c.current.generation;
      assert c.current.bindings[i] in c.current.bindings;
    }
  }

  class DirectOutputLifecycleCoordinator {
    const registry: AudioDeviceRegistry
    var active: bool

    constructor (registry: AudioDeviceRegistry)
      ensures this.registry == registry && !active
    {
      this.registry, active := registry, false;
    }

    method Start()
      modifies this
      ensures active
    {
      active := true;
    }

    method Shutdown()
      modifies this
      ensures !active
    {
      active := false;
    }

    method HandleTopologyChanged(c: Change, lossApplies: bool) returns (action: LifecycleAction)
      ensures action == if active then ActionFor(registry.View(), c, lossApplies) else Ignore
    {
      if !active {
        return Ignore;
      }
      if !(c.id in registry.records && registry.records[c.id].generation == c.current.generation) {
        return Ignore;
      }
      if registry.records[c.id].available != c.current.available {
        return Ignore;
      }
      if !c.current.available {
        return if lossApplies then Converge(c.id, c.current.generation) else Ignore;
      }
      action := if PlaybackBinding(c.current.bindings, c.current.generation) then Rebind(c.id, c.current.generation) else Ignore;
    }
  }

  lemma {:induction false} ChangesAreCurrent(before: Registry, after: Registry, ids: seq<Id>, n: nat, c: Change)
    requires n <= |ids| && c in Changes(before, after, ids, n)
    ensures c.id in ids && c.previous == TopologyOf(before, c.id) && c.current == TopologyOf(after, c.id)
  {
    hide TopologyOf, Differs;
    var rest := Changes(before, after, ids, n - 1);
    if c in rest {
      ChangesAreCurrent(before, after, ids, n - 1, c);
    } else {
      assert c == Change(ids[n - 1], TopologyOf(before, ids[n - 1]), TopologyOf(after, ids[n - 1]));
    }
  }

  lemma PublishedAreCurrent(before: Registry, after: Registry, c: Change)
    requires c in Published(before, after)
    ensures c.id in after.order && c.previous == TopologyOf(before, c.id) && c.current == TopologyOf(after, c.id)
  {
    hide TopologyOf, Differs, TextOrder.Sorted;
    var ids := TextOrder.Sorted(after.order);
    ChangesAreCurrent(before, after, ids, |ids|, c);
    TextOrder.SortedIsSorted(after.order, c.id);
  }

  ghost predicate PlaybackCapable(record: Record) {
    record.available && exists i :: 0 <= i < |record.bindings| && record.bindings[i].kind.AlsaPcm? && record.bindings[i].currentlyAvailable
  }

  lemma SameKeysSamePlayback(a: seq<Binding>, generation: nat, b: Record)
    requires Keys(a) == Keys(b.bindings) && PlaybackBinding(a, generation) && b.available
    ensures PlaybackCapable(b)
  {
    var i :| 0 <= i < |a| && a[i].kind.AlsaPcm? && a[i].currentlyAvailable;
    assert KeyList(a)[i] in Keys(b.bindings);
    assert KeyList(a)[i] in KeyList(b.bindings);
    var j :| 0 <= j < |b.bindings| && KeyList(b.bindings)[j] == KeyList(a)[i];
    assert b.bindings[j].kind.AlsaPcm?;
  }

  /** A change published by operation `i` and delivered after `j` operations, however late,
      acts only if the device has not changed in between; it converges a device that is gone
      and rebinds one that can play. */
  lemma LateChangeActsOnUnchanged(r: Registry, ops: seq<Operation>, i: nat, k: nat, j: nat, c: Change, lossApplies: bool)
    requires Valid(r) && RunOk(ops) && i < k <= j <= |ops|
    requires c in Published(At(r, ops, i), At(r, ops, i + 1))
    requires !ActionFor(At(r, ops, j), c, lossApplies).Ignore?
    ensures c.id in At(r, ops, i + 1).records && c.id in At(r, ops, k).records
    ensures SameTopology(At(r, ops, i + 1).records[c.id], At(r, ops, k).records[c.id])
    ensures var action := ActionFor(At(r, ops, j), c, lossApplies);
            var now := At(r, ops, j).records[c.id];
            && action.generation == now.generation
            && (action.Converge? ==> !now.available)
            && (action.Rebind? ==> PlaybackCapable(now))
  {
    hide SameTopology, Valid, PlaybackBinding, PlaybackCapable, Operated;
    var after := At(r, ops, i + 1);
    PublishedAreCurrent(At(r, ops, i), after, c);
    RunEvolves(r, ops, i + 1, j);
    OrderedAreRecords(after, c.id);
    AcceptedMeansUnchanged(r, ops, c.id, i + 1, k, j);
    AcceptedMeansUnchanged(r, ops, c.id, i + 1, j, j);
    if ActionFor(At(r, ops, j), c, lossApplies).Rebind? {
      SameTopologyParts(after.records[c.id], At(r, ops, j).records[c.id]);
      SameKeysSamePlayback(c.current.bindings, c.current.generation, At(r, ops, j).records[c.id]);
    }
  }

  lemma OrderedAreRecords(r: Registry, id: Id)
    requires Valid(r) && id in r.order
    ensures id in r.records
  {
  }

  lemma SameTopologyParts(a: Record, b: Record)
    requires SameTopology(a, b)
    ensures a.available == b.available && Keys(a.bindings) == Keys(b.bindings)
  {
  }

  /** The availability test of the coordinator never decides anything: a matching generation
      already fixes it. */
  lemma GenerationDecidesAvailability(r: Registry, ops: seq<Operation>, i: nat, j: nat, c: Change)
    requires Valid(r) && RunOk(ops) && i < j <= |ops|
    requires c in Published(At(r, ops, i), At(r, ops, i + 1))
    requires GenerationFor(At(r, ops, j), c.id) == Some(c.current.generation)
    ensures (c.id in Available(At(r, ops, j))) == c.current.available
  {
    hide SameTopology, Valid, Operated;
    var after := At(r, ops, i + 1);
    PublishedAreCurrent(At(r, ops, i), after, c);
    RunEvolves(r, ops, i + 1, j);
    OrderedAreRecords(after, c.id);
    AcceptedMeansUnchanged(r, ops, c.id, i + 1, j, j);
    SameTopologyParts(after.records[c.id], At(r, ops, j).records[c.id]);
  }
}
