/** From a batch of observations to acts, and what a re-scan with that batch guarantees. */
module DeviceBatches {
  import opened Wrappers
  import opened DeviceObservations
  import opened DeviceRegistry
  import opened DeviceHistory
  import TextOrder

  // ---------------------------------------------------------------------------
  // The acts of a batch
  // ---------------------------------------------------------------------------

  predicate IsUsb(o: Observation) {
    Present(o.vendorId) && Present(o.productId)
  }

  function UsbOf(os: seq<Observation>): seq<Observation> {
    if os == [] then []
    else UsbOf(os[..|os| - 1]) + (if IsUsb(os[|os| - 1]) then [os[|os| - 1]] else [])
  }

  function AlsaOf(os: seq<Observation>): seq<Observation> {
    if os == [] then []
    else AlsaOf(os[..|os| - 1]) + (if os[|os| - 1].source == "alsa" then [os[|os| - 1]] else [])
  }

  function PlaybackOf(os: seq<Observation>): (ps: seq<Observation>)
    ensures forall i :: 0 <= i < |ps| ==> ps[i].binding.Some?
  {
    if os == [] then []
    else PlaybackOf(os[..|os| - 1]) + (if os[|os| - 1].source == "alsa" && os[|os| - 1].binding.Some? then [os[|os| - 1]] else [])
  }

  predicate OnSamePath(o: Observation, item: Observation) {
    Present(o.physicalPath) && item.physicalPath == o.physicalPath
  }

  /** The ALSA playback endpoints among the first `n` that sit on the path of `o`. */
  function Correlated(playback: seq<Observation>, o: Observation, n: nat): seq<Binding>
    requires n <= |playback|
  {
    if n == 0 then []
    else
      var item := playback[n - 1];
      Correlated(playback, o, n - 1)
      + (if OnSamePath(o, item) && item.binding.Some? then [item.binding.value] else [])
  }

  predicate Captures(alsa: seq<Observation>, o: Observation) {
    exists i :: 0 <= i < |alsa| && OnSamePath(o, alsa[i]) && alsa[i].captureCapable
  }

  function UsbAct(os: seq<Observation>, n: nat): (a: Act)
    requires n < |UsbOf(os)|
  {
    var usb := UsbOf(os);
    var o := usb[n];
    var id := IdAt(usb, n);
    var endpoints := Correlated(PlaybackOf(os), o, |PlaybackOf(os)|);
    var capture := Captures(AlsaOf(os), o);
    if endpoints == [] then Vanish(id, capture)
    else Admit(id, IdentityOf(o, ConfidenceOf(usb, id, o)), if o.binding.Some? then [o.binding.value] else endpoints, capture)
  }

  function UsbPlan(os: seq<Observation>, n: nat): (acts: seq<Act>)
    requires n <= |UsbOf(os)|
    ensures |acts| == n
  {
    if n == 0 then [] else UsbPlan(os, n - 1) + [UsbAct(os, n - 1)]
  }

  function LocalId(locator: string): Id {
    "local:" + locator
  }

  predicate LocatorSeen(seen: map<Id, seq<Binding>>, locator: string) {
    exists id :: id in seen && Holds(seen[id], locator)
  }

  function LocalAct(o: Observation): Act
    requires o.binding.Some?
  {
    Admit(LocalId(o.binding.value.locator), IdentityOf(o, Low), [o.binding.value], o.captureCapable)
  }

  /** ALSA playback no USB device accounts for is admitted under its locator. */
  function Plan(os: seq<Observation>, m: nat): seq<Act>
    requires m <= |PlaybackOf(os)|
  {
    if m == 0 then UsbPlan(os, |UsbOf(os)|)
    else
      var p := Plan(os, m - 1);
      var o := PlaybackOf(os)[m - 1];
      if LocatorSeen(Seen(p), o.binding.value.locator) then p else p + [LocalAct(o)]
  }

  function ActsOf(os: seq<Observation>): seq<Act> {
    Plan(os, |PlaybackOf(os)|)
  }

  lemma {:induction false} UsbPlanAt(os: seq<Observation>, n: nat, i: nat)
    requires i < n <= |UsbOf(os)|
    ensures UsbPlan(os, n)[i] == UsbAct(os, i)
  {
    hide UsbAct, UsbOf;
    if i < n - 1 {
      UsbPlanAt(os, n - 1, i);
    }
  }

  lemma UsbPlanOk(os: seq<Observation>, n: nat)
    requires n <= |UsbOf(os)|
    ensures ActsOk(UsbPlan(os, n))
    ensures forall i :: 0 <= i < n ==> UsbPlan(os, n)[i] == UsbAct(os, i)
  {
    hide UsbAct, UsbOf, UsbPlan, ActOk;
    forall i | 0 <= i < n
      ensures UsbPlan(os, n)[i] == UsbAct(os, i) && ActOk(UsbPlan(os, n)[i])
    {
      UsbPlanAt(os, n, i);
      UsbActOk(os, i);
    }
  }

  lemma UsbActOk(os: seq<Observation>, n: nat)
    requires n < |UsbOf(os)|
    ensures ActOk(UsbAct(os, n)) && UsbAct(os, n).id == IdAt(UsbOf(os), n)
  {
    hide IdAt, Correlated, UsbOf;
  }

  lemma {:induction false} PlanOk(os: seq<Observation>, m: nat)
    requires m <= |PlaybackOf(os)|
    ensures ActsOk(Plan(os, m))
  {
    hide UsbPlan, LocatorSeen, PlaybackOf, UsbOf;
    if m == 0 {
      UsbPlanOk(os, |UsbOf(os)|);
    } else {
      PlanOk(os, m - 1);
    }
  }

  // ---------------------------------------------------------------------------
  // Distinct identities
  // ---------------------------------------------------------------------------

  ghost predicate DistinctActs(acts: seq<Act>) {
    forall i, j :: 0 <= i < j < |acts| ==> acts[i].id != acts[j].id
  }

  lemma UsbIdIsNotLocal(usb: seq<Observation>, n: nat, locator: string)
    requires n < |usb|
    ensures IdAt(usb, n) != LocalId(locator)
  {
    hide Taken, IdentifyingSerial;
    var id := IdAt(usb, n);
    var base := BaseId(usb, usb[n]);
    assert base[0] == 'u' || base[0] == 's';
    assert id[0] == base[0];
    assert LocalId(locator)[0] == 'l';
  }

  /** Whoever is admitted under a locator's own identity holds that locator. */
  ghost predicate LocalsHold(acts: seq<Act>) {
    forall locator :: LocalId(locator) in Seen(acts) ==> Holds(Seen(acts)[LocalId(locator)], locator)
  }

  lemma {:induction false} SeenAreActs(acts: seq<Act>, id: Id)
    requires id in Seen(acts)
    ensures exists i :: 0 <= i < |acts| && acts[i].id == id
  {
    var init, last := acts[..|acts| - 1], acts[|acts| - 1];
    if last.id == id {
      assert acts[|acts| - 1].id == id;
    } else {
      SeenAreActs(init, id);
      var i :| 0 <= i < |init| && init[i].id == id;
      assert acts[i].id == id;
    }
  }

  lemma {:induction false} AdmittedAreSeen(acts: seq<Act>, i: nat)
    requires i < |acts| && acts[i].Admit?
    ensures acts[i].id in Seen(acts)
  {
    var init := acts[..|acts| - 1];
    if i < |acts| - 1 {
      assert init[i] == acts[i];
      AdmittedAreSeen(init, i);
    }
  }

  lemma NoUsbLocals(os: seq<Observation>)
    ensures forall locator :: LocalId(locator) !in Seen(UsbPlan(os, |UsbOf(os)|))
    ensures LocalsHold(UsbPlan(os, |UsbOf(os)|))
  {
    hide UsbOf, UsbPlan, IdAt, Seen, UsbAct;
    var acts := UsbPlan(os, |UsbOf(os)|);
    forall locator
      ensures LocalId(locator) !in Seen(acts)
    {
      if LocalId(locator) in Seen(acts) {
        SeenAreActs(acts, LocalId(locator));
        var i :| 0 <= i < |acts| && acts[i].id == LocalId(locator);
        UsbPlanOk(os, |UsbOf(os)|);
        UsbActOk(os, i);
        UsbIdIsNotLocal(UsbOf(os), i, locator);
      }
    }
  }

  lemma SeenAfterLocal(p: seq<Act>, o: Observation)
    requires o.binding.Some?
    ensures Seen(p + [LocalAct(o)]) == Seen(p)[LocalId(o.binding.value.locator) := [o.binding.value]]
  {
    assert (p + [LocalAct(o)])[..|p|] == p;
  }

  lemma LocalActKeeps(p: seq<Act>, o: Observation)
    requires o.binding.Some? && LocalsHold(p) && !LocatorSeen(Seen(p), o.binding.value.locator)
    ensures LocalsHold(p + [LocalAct(o)])
    ensures LocalId(o.binding.value.locator) !in Seen(p)
  {
    hide Seen;
    SeenAfterLocal(p, o);
    var locator := o.binding.value.locator;
    forall l | LocalId(l) in Seen(p + [LocalAct(o)])
      ensures Holds(Seen(p + [LocalAct(o)])[LocalId(l)], l)
    {
      assert LocalId(l)[6..] == l && LocalId(locator)[6..] == locator;
      if l == locator {
        assert [o.binding.value][0].locator == l;
      } else {
        assert LocalId(l) != LocalId(locator);
      }
    }
  }

  /** What holds of every plan, however far the ALSA pass has come. */
  lemma {:induction false} PlanLocals(os: seq<Observation>, m: nat)
    requires m <= |PlaybackOf(os)|
    ensures LocalsHold(Plan(os, m))
  {
    hide UsbPlan, Seen, LocatorSeen, LocalsHold, PlaybackOf, UsbOf;
    if m == 0 {
      NoUsbLocals(os);
    } else {
      PlanLocals(os, m - 1);
      var o := PlaybackOf(os)[m - 1];
      if !LocatorSeen(Seen(Plan(os, m - 1)), o.binding.value.locator) {
        LocalActKeeps(Plan(os, m - 1), o);
      }
    }
  }

  lemma {:induction false} PlanDistinct(os: seq<Observation>, m: nat)
    requires m <= |PlaybackOf(os)| && DistinctIds(UsbOf(os))
    ensures DistinctActs(Plan(os, m))
    ensures forall i, locator :: 0 <= i < |Plan(os, m)| && Plan(os, m)[i].id == LocalId(locator) ==> Plan(os, m)[i].Admit?
  {
    hide IdAt, UsbAct, Seen, LocatorSeen, PlaybackOf, UsbOf, UsbPlan;
    if m == 0 {
      var acts := UsbPlan(os, |UsbOf(os)|);
      UsbPlanOk(os, |UsbOf(os)|);
      forall i | 0 <= i < |acts|
        ensures acts[i].id == IdAt(UsbOf(os), i)
      {
        UsbActOk(os, i);
      }
      forall i, locator | 0 <= i < |acts|
        ensures acts[i].id != LocalId(locator)
      {
        UsbIdIsNotLocal(UsbOf(os), i, locator);
      }
    } else {
      PlanDistinct(os, m - 1);
      PlanLocals(os, m - 1);
      var p := Plan(os, m - 1);
      var o := PlaybackOf(os)[m - 1];
      if !LocatorSeen(Seen(p), o.binding.value.locator) {
        LocalActKeeps(p, o);
        forall i | 0 <= i < |p|
          ensures p[i].id != LocalId(o.binding.value.locator)
        {
          if p[i].id == LocalId(o.binding.value.locator) {
            AdmittedAreSeen(p, i);
          }
        }
      }
    }
  }

  // ---------------------------------------------------------------------------
  // Ingesting the same batch again
  // ---------------------------------------------------------------------------

  /** The registry already says what the act says. */
  ghost predicate Done(r: Registry, a: Act) {
    if a.Admit? then
      && a.id in r.records
      && r.records[a.id] == Record(a.identity, true, r.records[a.id].generation,
                                   Stamped(a.bindings, r.records[a.id].generation), a.captureCapable)
    else
      a.id in r.records ==>
        !r.records[a.id].available && r.records[a.id].bindings == [] && r.records[a.id].captureCapable == a.captureCapable
  }

  ghost predicate AllDone(r: Registry, acts: seq<Act>) {
    forall i :: 0 <= i < |acts| ==> Done(r, acts[i])
  }

  lemma ActedDone(r: Registry, a: Act)
    requires Valid(r) && ActOk(a)
    ensures Done(Acted(r, a), a)
    ensures forall id :: id != a.id ==> (id in Acted(r, a).records <==> id in r.records)
    ensures forall id :: id != a.id && id in r.records ==> Acted(r, a).records[id] == r.records[id]
  {
    hide Keys, Valid;
    if a.id in r.records {
      ValidRecord(r, a.id);
    }
  }

  lemma DoneStays(r: Registry, s: Registry, a: Act)
    requires Done(r, a)
    requires a.id in s.records <==> a.id in r.records
    requires a.id in r.records ==> s.records[a.id] == r.records[a.id]
    ensures Done(s, a)
  {
  }

  lemma {:induction false} ActedAllDone(r: Registry, acts: seq<Act>)
    requires Valid(r) && ActsOk(acts) && DistinctActs(acts)
    ensures AllDone(ActedAll(r, acts), acts)
  {
    hide Valid, Acted, Done;
    if acts != [] {
      var init, last := acts[..|acts| - 1], acts[|acts| - 1];
      var s := ActedAll(r, init);
      ActedAllDone(r, init);
      ActedAllKeepsValid(r, init);
      ActedDone(s, last);
      forall i | 0 <= i < |acts|
        ensures Done(ActedAll(r, acts), acts[i])
      {
        if i < |acts| - 1 {
          assert acts[i] == init[i];
          DoneStays(s, Acted(s, last), acts[i]);
        }
      }
    }
  }

  lemma IngestedDone(r: Registry, acts: seq<Act>)
    requires Valid(r) && ActsOk(acts) && DistinctActs(acts)
    ensures AllDone(Ingested(r, acts), acts)
    ensures Available(Ingested(r, acts)) <= Seen(acts).Keys
  {
    hide Swept, Acted, Valid, Seen;
    var s := ActedAll(r, acts);
    var gone := Available(s) - Seen(acts).Keys;
    ActedAllDone(r, acts);
    ActedAllKeepsValid(r, acts);
    SweptRecords(s, s.order, gone, |s.order|);
    forall i | 0 <= i < |acts|
      ensures Done(Ingested(r, acts), acts[i])
    {
      assert Done(s, acts[i]);
      if acts[i].Admit? {
        AdmittedAreSeen(acts, i);
      }
      DoneStays(s, Ingested(r, acts), acts[i]);
    }
    IngestedReflects(r, acts);
    forall id | id in Available(Ingested(r, acts))
      ensures id in Seen(acts)
    {
      AvailableIff(Ingested(r, acts), Seen(acts), id);
    }
  }

  lemma SameEntry(r: Registry, id: Id)
    requires id in r.records
    ensures Enter(r, id, r.records[id], r.generation) == r
  {
    assert r.records[id := r.records[id]] == r.records;
  }

  lemma DoneIsFixed(r: Registry, a: Act)
    requires Done(r, a) && (a.Admit? ==> AllAvailable(a.bindings))
    ensures Acted(r, a) == r
  {
    hide Enter, Keys;
    if a.id in r.records {
      SameEntry(r, a.id);
      if a.Admit? {
        StampedKeysIff(a.bindings, r.records[a.id].generation);
      }
    }
  }

  lemma {:induction false} AllDoneIsFixed(r: Registry, acts: seq<Act>)
    requires AllDone(r, acts) && OffersAvailable(acts)
    ensures ActedAll(r, acts) == r
  {
    hide Acted, Done;
    if acts != [] {
      var init := acts[..|acts| - 1];
      forall i | 0 <= i < |init|
        ensures Done(r, init[i]) && (init[i].Admit? ==> AllAvailable(init[i].bindings))
      {
        assert init[i] == acts[i];
      }
      AllDoneIsFixed(r, init);
      DoneIsFixed(r, acts[|acts| - 1]);
    }
  }

  ghost predicate OffersAvailable(acts: seq<Act>) {
    forall i :: 0 <= i < |acts| && acts[i].Admit? ==> AllAvailable(acts[i].bindings)
  }

  /** The first act that offers an unavailable binding gets a new generation every time. */
  lemma {:induction false} UnavailableGrows(r: Registry, acts: seq<Act>)
    requires Valid(r) && ActsOk(acts) && DistinctActs(acts) && AllDone(r, acts) && !OffersAvailable(acts)
    ensures ActedAll(r, acts).generation > r.generation
  {
    hide Acted, Done, Keys, Valid;
    var init, last := acts[..|acts| - 1], acts[|acts| - 1];
    forall i | 0 <= i < |init|
      ensures init[i] == acts[i]
    {
    }
    ActedAllKeepsValid(r, init);
    ActedEvolves(ActedAll(r, init), last);
    if OffersAvailable(init) {
      AllDoneIsFixed(r, init);
      assert last.Admit? && !AllAvailable(last.bindings);
      assert Done(r, last);
      OfferGrows(r, last);
    } else {
      UnavailableGrows(r, init);
    }
  }

  lemma OfferGrows(r: Registry, a: Act)
    requires Done(r, a) && a.Admit? && !AllAvailable(a.bindings)
    ensures Acted(r, a).generation > r.generation
  {
    hide Keys;
    StampedKeysIff(a.bindings, r.records[a.id].generation);
  }

  lemma RepeatGrows(r: Registry, acts: seq<Act>)
    requires Valid(r) && ActsOk(acts) && DistinctActs(acts) && AllDone(r, acts) && !OffersAvailable(acts)
    ensures Ingested(r, acts).generation > r.generation && Published(r, Ingested(r, acts)) != []
  {
    hide ActedAll, Swept, Valid, AllDone, Published, Topped, Seen, Evolves;
    var s := ActedAll(r, acts);
    var gone := Available(s) - Seen(acts).Keys;
    UnavailableGrows(r, acts);
    ActedAllKeepsValid(r, acts);
    SweptEvolves(s, s.order, gone, |s.order|);
    SweptKeepsValid(s, s.order, gone, |s.order|);
    NeverSmaller(s, Swept(s, s.order, gone, |s.order|));
    ActedAllTops(r, acts);
    SweptTops(r, s, s.order, gone, |s.order|);
    GrownIsPublished(r, Ingested(r, acts));
  }

  lemma NeverSmaller(r: Registry, s: Registry)
    requires Evolves(r, s)
    ensures r.generation <= s.generation
  {
  }

  /** Ingesting the same acts again changes nothing at all, and announces nothing, exactly when
      every binding they offer was observed as available. */
  lemma IdempotentIff(r: Registry, acts: seq<Act>)
    requires Valid(r) && ActsOk(acts) && DistinctActs(acts)
    ensures Ingested(Ingested(r, acts), acts) == Ingested(r, acts) <==> OffersAvailable(acts)
    ensures Published(Ingested(r, acts), Ingested(Ingested(r, acts), acts)) == [] <==> OffersAvailable(acts)
  {
    hide Acted, Done, Valid, Seen, Published;
    var z := Ingested(r, acts);
    IngestedDone(r, acts);
    IngestedReflects(r, acts);
    if OffersAvailable(acts) {
      AllDoneIsFixed(z, acts);
      SweepNothing(z, z.order, Available(z) - Seen(acts).Keys, |z.order|);
      NothingPublished(z);
    } else {
      RepeatGrows(z, acts);
    }
  }

  lemma NothingPublished(r: Registry)
    ensures Published(r, r) == []
  {
    hide TextOrder.Sorted, Changes;
    NoChanges(r, TextOrder.Sorted(r.order), |TextOrder.Sorted(r.order)|);
  }

  lemma {:induction false} SweepNothing(r: Registry, order: seq<Id>, gone: set<Id>, n: nat)
    requires n <= |order| && gone == {}
    ensures Swept(r, order, gone, n) == r
  {
    if n > 0 {
      SweepNothing(r, order, gone, n - 1);
    }
  }

  /** In terms of the observations: for a batch whose devices have distinct identities, ingesting
      it again changes and publishes nothing exactly when its endpoints are available. */
  lemma RescanIsIdempotent(r: Registry, os: seq<Observation>)
    requires Valid(r) && NoForgedNumbers(UsbOf(os), |UsbOf(os)|)
    ensures Ingested(Ingested(r, ActsOf(os)), ActsOf(os)) == Ingested(r, ActsOf(os)) <==> OffersAvailable(ActsOf(os))
    ensures var z := Ingested(r, ActsOf(os));
            Published(z, Ingested(z, ActsOf(os))) == [] <==> OffersAvailable(ActsOf(os))
  {
    hide Ingested, Plan, Valid, UsbOf, Published;
    DistinctIdsIff(UsbOf(os));
    PlanDistinct(os, |PlaybackOf(os)|);
    PlanOk(os, |PlaybackOf(os)|);
    IdempotentIff(r, ActsOf(os));
  }

  const HIDDEN_ENDPOINT := Binding(AlsaPcm, "hw:0", 0, false, None, None, None, None)

  const HIDDEN_CARD := Observation("alsa", None, None, None, None, None, Some(HIDDEN_ENDPOINT), false)

  lemma PlanOfHidden()
    ensures UsbOf([HIDDEN_CARD]) == [] && ActsOf([HIDDEN_CARD]) == [LocalAct(HIDDEN_CARD)]
  {
    var os := [HIDDEN_CARD];
    assert os[..0] == [] && UsbOf(os) == [] && PlaybackOf(os) == [HIDDEN_CARD];
    assert Plan(os, 0) == [];
  }

  /** One ALSA endpoint that reports itself unavailable: each re-scan announces it again. */
  lemma UnavailableEndpointRepublishes()
    ensures var acts := ActsOf([HIDDEN_CARD]);
            var z := Ingested(EMPTY, acts);
            Ingested(z, acts) != z && Published(z, Ingested(z, acts)) != []
  {
    hide Ingested, Published, Plan, PlaybackOf, UsbOf;
    PlanOfHidden();
    var acts := ActsOf([HIDDEN_CARD]);
    assert acts[0].bindings[0] == HIDDEN_ENDPOINT;
    assert !AllAvailable(acts[0].bindings);
    assert !OffersAvailable(acts);
    RescanIsIdempotent(EMPTY, [HIDDEN_CARD]);
  }

  lemma {:induction false} NoChanges(r: Registry, ids: seq<Id>, n: nat)
    requires n <= |ids|
    ensures Changes(r, r, ids, n) == []
  {
    if n > 0 {
      NoChanges(r, ids, n - 1);
    }
  }

  // ---------------------------------------------------------------------------
  // Every playback endpoint has its device
  // ---------------------------------------------------------------------------

  lemma {:induction false} EveryLocatorSeen(os: seq<Observation>, m: nat, j: nat)
    requires j < m <= |PlaybackOf(os)|
    ensures LocatorSeen(Seen(Plan(os, m)), PlaybackOf(os)[j].binding.value.locator)
  {
    hide Seen, UsbPlan, PlaybackOf, LocatorSeen, UsbOf;
    var p := Plan(os, m - 1);
    var o := PlaybackOf(os)[m - 1];
    var locator := o.binding.value.locator;
    if !LocatorSeen(Seen(p), locator) {
      PlanLocals(os, m - 1);
      LocalActKeeps(p, o);
      SeenAfterLocal(p, o);
      LocatorStaysSeen(Seen(p), LocalId(locator), o.binding.value, PlaybackOf(os)[j].binding.value.locator);
    }
    if j < m - 1 {
      EveryLocatorSeen(os, m - 1, j);
    }
  }

  lemma LocatorStaysSeen(seen: map<Id, seq<Binding>>, id: Id, b: Binding, locator: string)
    requires id !in seen
    ensures LocatorSeen(seen, locator) ==> LocatorSeen(seen[id := [b]], locator)
    ensures LocatorSeen(seen[id := [b]], b.locator)
  {
    var next := seen[id := [b]];
    assert next[id][0] == b && Holds(next[id], b.locator);
    if LocatorSeen(seen, locator) {
      var other :| other in seen && Holds(seen[other], locator);
      assert Holds(next[other], locator);
    }
  }

  /** No two devices hold the same locator. */
  ghost predicate HeldOnce(seen: map<Id, seq<Binding>>) {
    forall a, b, locator :: a in seen && b in seen && Holds(seen[a], locator) && Holds(seen[b], locator) ==> a == b
  }

  /** USB paths and ALSA locators are distinct, and no USB observation is an ALSA endpoint. */
  ghost predicate Unambiguous(os: seq<Observation>) {
    && (forall i, j :: 0 <= i < j < |UsbOf(os)| && Present(UsbOf(os)[i].physicalPath) ==>
          UsbOf(os)[i].physicalPath != UsbOf(os)[j].physicalPath)
    && (forall i, j :: 0 <= i < j < |PlaybackOf(os)| ==>
          PlaybackOf(os)[i].binding.value.locator != PlaybackOf(os)[j].binding.value.locator)
    && (forall i :: 0 <= i < |UsbOf(os)| ==> UsbOf(os)[i].binding.None?)
  }

  ghost predicate EndpointOn(playback: seq<Observation>, path: Option<string>, locator: string) {
    exists k :: 0 <= k < |playback| && playback[k].physicalPath == path && playback[k].binding.Some?
                && playback[k].binding.value.locator == locator
  }

  lemma LastHolds(a: seq<Binding>, b: seq<Binding>, locator: string)
    requires Holds(a + b, locator) && !Holds(a, locator)
    ensures Holds(b, locator)
  {
    var i :| 0 <= i < |a + b| && (a + b)[i].locator == locator;
    assert forall k :: 0 <= k < |a| ==> (a + b)[k] == a[k];
    assert b[i - |a|].locator == locator;
  }

  lemma {:induction false} CorrelatedOnPath(playback: seq<Observation>, o: Observation, n: nat, locator: string)
    requires n <= |playback| && Holds(Correlated(playback, o, n), locator)
    ensures Present(o.physicalPath) && EndpointOn(playback, o.physicalPath, locator)
  {
    var rest := Correlated(playback, o, n - 1);
    var item := playback[n - 1];
    if Holds(rest, locator) {
      CorrelatedOnPath(playback, o, n - 1, locator);
    } else {
      LastHolds(rest, if OnSamePath(o, item) && item.binding.Some? then [item.binding.value] else [], locator);
      assert OnSamePath(o, item) && item.binding.Some? && item.binding.value.locator == locator;
    }
  }

  lemma UsbActHolds(os: seq<Observation>, i: nat, locator: string)
    requires i < |UsbOf(os)| && Unambiguous(os)
    requires UsbAct(os, i).Admit? && Holds(UsbAct(os, i).bindings, locator)
    ensures Present(UsbOf(os)[i].physicalPath) && EndpointOn(PlaybackOf(os), UsbOf(os)[i].physicalPath, locator)
  {
    hide IdAt, Correlated, PlaybackOf, UsbOf, EndpointOn, Holds;
    CorrelatedOnPath(PlaybackOf(os), UsbOf(os)[i], |PlaybackOf(os)|, locator);
  }

  lemma SeenAfterUsb(os: seq<Observation>, n: nat)
    requires 0 < n <= |UsbOf(os)|
    ensures var a := UsbAct(os, n - 1);
            var seen, next := Seen(UsbPlan(os, n - 1)), Seen(UsbPlan(os, n));
            && (a.Admit? ==> next == seen[a.id := a.bindings])
            && (a.Vanish? ==> forall id, locator :: id in next && Holds(next[id], locator) ==> id in seen && Holds(seen[id], locator))
  {
    hide UsbAct, UsbOf;
    assert UsbPlan(os, n)[..n - 1] == UsbPlan(os, n - 1) && UsbPlan(os, n)[n - 1] == UsbAct(os, n - 1);
  }

  /** A device that holds a locator after the USB pass sits on the path of that endpoint. */
  lemma {:induction false} UsbHolds(os: seq<Observation>, n: nat, id: Id, locator: string) returns (i: nat)
    requires n <= |UsbOf(os)| && Unambiguous(os)
    requires id in Seen(UsbPlan(os, n)) && Holds(Seen(UsbPlan(os, n))[id], locator)
    ensures i < n && IdAt(UsbOf(os), i) == id
    ensures Present(UsbOf(os)[i].physicalPath) && EndpointOn(PlaybackOf(os), UsbOf(os)[i].physicalPath, locator)
  {
    hide IdAt, UsbAct, Seen, UsbPlan, PlaybackOf, UsbOf, EndpointOn, Holds, Unambiguous;
    if n == 0 {
      NothingSeen(os);
    } else {
      SeenAfterUsb(os, n);
      UsbActOk(os, n - 1);
      if UsbAct(os, n - 1).Admit? && UsbAct(os, n - 1).id == id {
        i := n - 1;
        UsbActHolds(os, i, locator);
      } else {
        i := UsbHolds(os, n - 1, id, locator);
      }
    }
  }

  lemma NothingSeen(os: seq<Observation>)
    ensures Seen(UsbPlan(os, 0)) == map[]
  {
  }

  lemma UsbHeldOnce(os: seq<Observation>)
    requires Unambiguous(os)
    ensures HeldOnce(Seen(UsbPlan(os, |UsbOf(os)|)))
  {
    hide IdAt, UsbPlan, Seen, PlaybackOf, UsbOf, Holds;
    var seen := Seen(UsbPlan(os, |UsbOf(os)|));
    forall a, b, locator | a in seen && b in seen && Holds(seen[a], locator) && Holds(seen[b], locator)
      ensures a == b
    {
      var i := UsbHolds(os, |UsbOf(os)|, a, locator);
      var j := UsbHolds(os, |UsbOf(os)|, b, locator);
      SamePath(os, i, j, locator);
    }
  }

  lemma SamePath(os: seq<Observation>, i: nat, j: nat, locator: string)
    requires Unambiguous(os) && i < |UsbOf(os)| && j < |UsbOf(os)|
    requires Present(UsbOf(os)[i].physicalPath) && EndpointOn(PlaybackOf(os), UsbOf(os)[i].physicalPath, locator)
    requires Present(UsbOf(os)[j].physicalPath) && EndpointOn(PlaybackOf(os), UsbOf(os)[j].physicalPath, locator)
    ensures i == j
  {
    hide PlaybackOf, UsbOf;
    var playback := PlaybackOf(os);
    var k :| 0 <= k < |playback| && playback[k].physicalPath == UsbOf(os)[i].physicalPath && playback[k].binding.Some?
             && playback[k].binding.value.locator == locator;
    var l :| 0 <= l < |playback| && playback[l].physicalPath == UsbOf(os)[j].physicalPath && playback[l].binding.Some?
             && playback[l].binding.value.locator == locator;
    assert k == l;
  }

  lemma {:induction false} PlanHeldOnce(os: seq<Observation>, m: nat)
    requires m <= |PlaybackOf(os)| && Unambiguous(os)
    ensures HeldOnce(Seen(Plan(os, m)))
  {
    hide Seen, UsbPlan, PlaybackOf, UsbOf, Unambiguous, HeldOnce;
    if m == 0 {
      UsbHeldOnce(os);
    } else {
      PlanHeldOnce(os, m - 1);
      var p := Plan(os, m - 1);
      var o := PlaybackOf(os)[m - 1];
      if !LocatorSeen(Seen(p), o.binding.value.locator) {
        SeenAfterLocal(p, o);
        HeldOnceMore(Seen(p), LocalId(o.binding.value.locator), o.binding.value);
      }
    }
  }

  lemma HeldOnceMore(seen: map<Id, seq<Binding>>, id: Id, b: Binding)
    requires HeldOnce(seen) && !LocatorSeen(seen, b.locator)
    ensures HeldOnce(seen[id := [b]])
  {
  }

  ghost predicate HoldsLocator(r: Registry, id: Id, locator: string) {
    id in Available(r) && Holds(r.records[id].bindings, locator)
  }

  lemma HoldsIffSeen(r: Registry, acts: seq<Act>, id: Id, locator: string)
    requires Valid(r) && ActsOk(acts)
    ensures HoldsLocator(Ingested(r, acts), id, locator) <==> id in Seen(acts) && Holds(Seen(acts)[id], locator)
  {
    hide Ingested, Valid, Seen;
    var z := Ingested(r, acts);
    IngestedReflects(r, acts);
    AvailableIff(z, Seen(acts), id);
    if id in Seen(acts) {
      assert Reflects(z, id, Seen(acts)[id]);
      StampedHolds(Seen(acts)[id], z.records[id].generation, locator);
    }
  }

  /** After a re-scan every ALSA playback endpoint is held by an available device, and by one
      only when the batch is unambiguous. */
  lemma EveryEndpointHeld(r: Registry, os: seq<Observation>, j: nat)
    requires Valid(r) && j < |PlaybackOf(os)|
    ensures var z := Ingested(r, ActsOf(os));
            var locator := PlaybackOf(os)[j].binding.value.locator;
            && (exists id :: HoldsLocator(z, id, locator))
            && (Unambiguous(os) ==> forall a, b :: HoldsLocator(z, a, locator) && HoldsLocator(z, b, locator) ==> a == b)
  {
    hide Ingested, Plan, PlaybackOf, Valid, Seen, Unambiguous, Holds, HoldsLocator;
    var m := |PlaybackOf(os)|;
    var z := Ingested(r, ActsOf(os));
    var seen := Seen(ActsOf(os));
    var locator := PlaybackOf(os)[j].binding.value.locator;
    PlanOk(os, m);
    EveryLocatorSeen(os, m, j);
    var holder :| holder in seen && Holds(seen[holder], locator);
    HoldsIffSeen(r, ActsOf(os), holder, locator);
    if Unambiguous(os) {
      PlanHeldOnce(os, m);
      forall a, b | HoldsLocator(z, a, locator) && HoldsLocator(z, b, locator)
        ensures a == b
      {
        HoldsIffSeen(r, ActsOf(os), a, locator);
        HoldsIffSeen(r, ActsOf(os), b, locator);
      }
    }
  }
}
