/** What a re-scan records, in terms of the observations it was given. */
module DeviceOutcomes {
  import opened Wrappers
  import opened Texts
  import opened DeviceObservations
  import opened DeviceRegistry
  import opened DeviceHistory
  import opened DeviceBatches

  // ---------------------------------------------------------------------------
  // Which serial identifies
  // ---------------------------------------------------------------------------

  /** A serial is useful exactly when two different characters are left between its blanks. */
  lemma UsefulSerialIff(s: string)
    ensures var value := Strip(s);
            UsefulSerial(Some(s)) == if exists i, j :: 0 <= i < j < |value| && value[i] != value[j] then Some(value) else None
  {
    hide Strip;
    var value := Strip(s);
    if exists i, j :: 0 <= i < j < |value| && value[i] != value[j] {
      var i, j :| 0 <= i < j < |value| && value[i] != value[j];
      assert value[i] in value && value[j] in value;
      assert value == Strip(Some(s).value);
    } else {
      forall c, d | c in value && d in value
        ensures c == d
      {
        var i, j :| 0 <= i < |value| && 0 <= j < |value| && value[i] == c && value[j] == d;
        assert i < j ==> value[i] == value[j];
        assert j < i ==> value[j] == value[i];
      }
    }
  }

  ghost predicate OnlyReporter(usb: seq<Observation>, i: nat)
    requires i < |usb|
  {
    forall j :: 0 <= j < |usb| && j != i ==> UsefulSerial(usb[j].serial) != UsefulSerial(usb[i].serial)
  }

  lemma {:induction false} CountedUnlessOnly(usb: seq<Observation>, n: nat, i: nat, s: string)
    requires i < |usb| && n <= |usb| && OnlyReporter(usb, i) && UsefulSerial(usb[i].serial) == Some(s)
    ensures SerialCount(usb, n, s) == if i < n then 1 else 0
  {
    hide UsefulSerial;
    if n > 0 {
      CountedUnlessOnly(usb, n - 1, i, s);
    }
  }

  /** A device is known by its serial exactly when that is useful and no other device of the
      batch reports it. */
  lemma IdentifiesIff(usb: seq<Observation>, i: nat)
    requires i < |usb|
    ensures IdentifyingSerial(usb, usb[i]) == if OnlyReporter(usb, i) then UsefulSerial(usb[i].serial) else None
  {
    hide UsefulSerial, SerialCount;
    var serial := UsefulSerial(usb[i].serial);
    if OnlyReporter(usb, i) {
      if serial.Some? {
        CountedUnlessOnly(usb, |usb|, i, serial.value);
      }
    } else {
      var j :| 0 <= j < |usb| && j != i && UsefulSerial(usb[j].serial) == serial;
      SharedSerialIdentifiesNobody(usb, i, j);
    }
  }

  /** The four ways a device of a batch gets its identity, and the confidence that goes with it. */
  lemma IdentityByEvidence(usb: seq<Observation>, i: nat)
    requires i < |usb|
    ensures var o := usb[i];
            var serial := UsefulSerial(o.serial);
            var known := "usb:" + Text(o.vendorId) + ":" + Text(o.productId) + ":";
            && (OnlyReporter(usb, i) && serial.Some? ==>
                  BaseAt(usb, i) == known + serial.value && ConfidenceOf(usb, IdAt(usb, i), o) == High)
            && (!OnlyReporter(usb, i) || serial.None? ==>
                  && (Present(o.physicalPath) ==> BaseAt(usb, i) == known + o.physicalPath.value)
                  && (!Present(o.physicalPath) && Present(o.product) ==> BaseAt(usb, i) == "sysfs:" + o.product.value)
                  && (!Present(o.physicalPath) && !Present(o.product) ==> BaseAt(usb, i) == "sysfs:usb")
                  && (ConfidenceOf(usb, IdAt(usb, i), o)
                      == if '#' in IdAt(usb, i) then Ambiguous else if Present(o.physicalPath) then Medium else Low))
  {
    hide UsefulSerial, SerialCount, OnlyReporter, IdAt, IdentifyingSerial;
    IdentifiesIff(usb, i);
  }

  // ---------------------------------------------------------------------------
  // Which bindings are told apart
  // ---------------------------------------------------------------------------

  /** Two bindings count as the same exactly when they agree on these seven things; an absent
      number is -1, an absent signature the empty one. */
  lemma KeysIff(a: Binding, b: Binding)
    ensures KeyOf(a) == KeyOf(b) <==>
              && a.kind == b.kind && a.locator == b.locator && a.currentlyAvailable == b.currentlyAvailable
              && (if a.cardIndex.Some? then a.cardIndex.value else -1) == (if b.cardIndex.Some? then b.cardIndex.value else -1)
              && (if a.pcmDevice.Some? then a.pcmDevice.value else -1) == (if b.pcmDevice.Some? then b.pcmDevice.value else -1)
              && (if a.pcmSubdevice.Some? then a.pcmSubdevice.value else -1)
                 == (if b.pcmSubdevice.Some? then b.pcmSubdevice.value else -1)
              && (if a.signature.Some? then a.signature.value else "") == (if b.signature.Some? then b.signature.value else "")
  {
  }

  // ---------------------------------------------------------------------------
  // Which observations count
  // ---------------------------------------------------------------------------

  lemma {:induction false} LastOf(os: seq<Observation>, o: Observation)
    requires os != []
    ensures o in os <==> o in os[..|os| - 1] || o == os[|os| - 1]
  {
    assert os == os[..|os| - 1] + [os[|os| - 1]];
  }

  /** A USB device names its vendor and its product; an ALSA endpoint comes from ALSA with a
      binding. */
  lemma {:induction false} CountedObservations(os: seq<Observation>, o: Observation)
    ensures o in UsbOf(os) <==> o in os && o.vendorId !in {None, Some("")} && o.productId !in {None, Some("")}
    ensures o in AlsaOf(os) <==> o in os && o.source == "alsa"
    ensures o in PlaybackOf(os) <==> o in os && o.source == "alsa" && o.binding.Some?
  {
    if os != [] {
      CountedObservations(os[..|os| - 1], o);
      LastOf(os, o);
    }
  }

  /** `e` is an observation of the batch from ALSA on the given path. */
  ghost predicate AlsaOn(os: seq<Observation>, path: Option<string>, e: Observation) {
    e in os && e.source == "alsa" && path !in {None, Some("")} && e.physicalPath == path
  }

  ghost predicate PlaybackOn(os: seq<Observation>, path: Option<string>, locator: string) {
    exists e :: AlsaOn(os, path, e) && e.binding.Some? && e.binding.value.locator == locator
  }

  ghost predicate CaptureOn(os: seq<Observation>, path: Option<string>) {
    exists e :: AlsaOn(os, path, e) && e.captureCapable
  }

  lemma CapturesIff(os: seq<Observation>, o: Observation)
    ensures Captures(AlsaOf(os), o) <==> CaptureOn(os, o.physicalPath)
  {
    hide AlsaOf;
    var alsa := AlsaOf(os);
    if CaptureOn(os, o.physicalPath) {
      var e :| AlsaOn(os, o.physicalPath, e) && e.captureCapable;
      CountedObservations(os, e);
      var i :| 0 <= i < |alsa| && alsa[i] == e;
      assert OnSamePath(o, alsa[i]);
    }
    if Captures(alsa, o) {
      var i :| 0 <= i < |alsa| && OnSamePath(o, alsa[i]) && alsa[i].captureCapable;
      CountedObservations(os, alsa[i]);
      assert AlsaOn(os, o.physicalPath, alsa[i]);
    }
  }

  lemma {:induction false} CorrelatedHolds(playback: seq<Observation>, o: Observation, n: nat, k: nat)
    requires k < n <= |playback| && OnSamePath(o, playback[k]) && playback[k].binding.Some?
    ensures Holds(Correlated(playback, o, n), playback[k].binding.value.locator)
  {
    var rest := Correlated(playback, o, n - 1);
    var all := Correlated(playback, o, n);
    if k < n - 1 {
      CorrelatedHolds(playback, o, n - 1, k);
      var i :| 0 <= i < |rest| && rest[i].locator == playback[k].binding.value.locator;
      assert all[i] == rest[i];
    } else {
      assert all[|rest|] == playback[k].binding.value;
    }
  }

  /** The endpoints correlated with a device are those on its path. */
  lemma CorrelatedIff(os: seq<Observation>, o: Observation, locator: string)
    ensures Holds(Correlated(PlaybackOf(os), o, |PlaybackOf(os)|), locator) <==> PlaybackOn(os, o.physicalPath, locator)
  {
    hide PlaybackOf, Holds, Correlated;
    var playback := PlaybackOf(os);
    if Holds(Correlated(playback, o, |playback|), locator) {
      CorrelatedOnPath(playback, o, |playback|, locator);
      var k :| 0 <= k < |playback| && playback[k].physicalPath == o.physicalPath && playback[k].binding.Some?
               && playback[k].binding.value.locator == locator;
      CountedObservations(os, playback[k]);
      assert AlsaOn(os, o.physicalPath, playback[k]);
    }
    if PlaybackOn(os, o.physicalPath, locator) {
      var e :| AlsaOn(os, o.physicalPath, e) && e.binding.Some? && e.binding.value.locator == locator;
      CountedObservations(os, e);
      var k :| 0 <= k < |playback| && playback[k] == e;
      CorrelatedHolds(playback, o, |playback|, k);
    }
  }

  // ---------------------------------------------------------------------------
  // USB devices after a re-scan
  // ---------------------------------------------------------------------------

  /** What the record of a USB device says once the batch is ingested: it is available exactly
      when ALSA reports playback on its path, holds exactly those endpoints, or the one it names
      itself, and carries what was observed. */
  ghost predicate Recorded(z: Registry, os: seq<Observation>, id: Id, o: Observation, confidence: Confidence) {
    && (id in Available(z) <==> exists locator :: PlaybackOn(os, o.physicalPath, locator))
    && (id in z.records ==> (z.records[id].captureCapable <==> CaptureOn(os, o.physicalPath)))
    && (id in Available(z) ==>
          && z.records[id].identity
             == Identity(o.vendorId, o.productId, UsefulSerial(o.serial), o.product, o.physicalPath, confidence)
          && forall locator :: Holds(z.records[id].bindings, locator) <==>
               if o.binding.Some? then locator == o.binding.value.locator else PlaybackOn(os, o.physicalPath, locator))
  }

  lemma EmptyHoldsNothing(bs: seq<Binding>)
    ensures bs != [] <==> exists locator :: Holds(bs, locator)
  {
    if bs != [] {
      assert Holds(bs, bs[0].locator);
    }
  }

  /** What the act of a USB device offers, in terms of the batch. */
  lemma UsbActOffers(os: seq<Observation>, i: nat)
    requires i < |UsbOf(os)|
    ensures var o, a := UsbOf(os)[i], UsbAct(os, i);
            && a.id == IdAt(UsbOf(os), i)
            && (a.captureCapable <==> CaptureOn(os, o.physicalPath))
            && (a.Admit? <==> exists locator :: PlaybackOn(os, o.physicalPath, locator))
            && (a.Admit? ==>
                  && a.identity == Identity(o.vendorId, o.productId, UsefulSerial(o.serial), o.product, o.physicalPath,
                                            ConfidenceOf(UsbOf(os), a.id, o))
                  && forall locator :: Holds(a.bindings, locator) <==>
                       if o.binding.Some? then locator == o.binding.value.locator else PlaybackOn(os, o.physicalPath, locator))
  {
    hide IdAt, Correlated, PlaybackOf, AlsaOf, UsbOf, Captures, UsefulSerial, ConfidenceOf, PlaybackOn, Holds;
    var o := UsbOf(os)[i];
    var endpoints := Correlated(PlaybackOf(os), o, |PlaybackOf(os)|);
    CapturesIff(os, o);
    EmptyHoldsNothing(endpoints);
    forall locator {
      CorrelatedIff(os, o, locator);
    }
    if o.binding.Some? {
      forall locator {
        OneHolds(o.binding.value, locator);
      }
    }
  }

  lemma OneHolds(b: Binding, locator: string)
    ensures Holds([b], locator) <==> locator == b.locator
  {
    assert [b][0] == b;
  }

  /** After a re-scan of a batch whose identities are distinct, every USB device is recorded. */
  lemma UsbDeviceRecorded(r: Registry, os: seq<Observation>, i: nat)
    requires Valid(r) && i < |UsbOf(os)| && NoForgedNumbers(UsbOf(os), |UsbOf(os)|)
    ensures var id := IdAt(UsbOf(os), i);
            Recorded(Ingested(r, ActsOf(os)), os, id, UsbOf(os)[i], ConfidenceOf(UsbOf(os), id, UsbOf(os)[i]))
  {
    hide Ingested, Plan, Valid, UsbOf, UsbAct, IdAt, PlaybackOn, CaptureOn, UsefulSerial, ConfidenceOf, Seen, Holds, PlaybackOf,
         NoForgedNumbers;
    var acts := ActsOf(os);
    var z := Ingested(r, acts);
    DistinctIdsIff(UsbOf(os));
    PlanDistinct(os, |PlaybackOf(os)|);
    PlanOk(os, |PlaybackOf(os)|);
    IngestedDone(r, acts);
    PlanStartsWithUsb(os, |PlaybackOf(os)|, i);
    assert Done(z, UsbAct(os, i));
    UsbActOffers(os, i);
    if UsbAct(os, i).Admit? {
      forall locator {
        StampedHolds(UsbAct(os, i).bindings, z.records[UsbAct(os, i).id].generation, locator);
      }
    }
  }

  lemma {:induction false} PlanStartsWithUsb(os: seq<Observation>, m: nat, i: nat)
    requires m <= |PlaybackOf(os)| && i < |UsbOf(os)|
    ensures i < |Plan(os, m)| && Plan(os, m)[i] == UsbAct(os, i)
  {
    hide UsbAct, UsbOf, PlaybackOf, LocatorSeen;
    if m == 0 {
      UsbPlanAt(os, |UsbOf(os)|, i);
    } else {
      PlanStartsWithUsb(os, m - 1, i);
    }
  }

  // ---------------------------------------------------------------------------
  // Other devices after a re-scan
  // ---------------------------------------------------------------------------

  /** Some ALSA endpoint of the first `m` has this locator. */
  ghost predicate Endpoint(os: seq<Observation>, m: nat, locator: string)
    requires m <= |PlaybackOf(os)|
  {
    exists j :: 0 <= j < m && PlaybackOf(os)[j].binding.value.locator == locator
  }

  /** The locators after the ALSA pass are those of the USB devices and the local ones. */
  lemma {:induction false} LocalSeenIff(os: seq<Observation>, m: nat, locator: string)
    requires m <= |PlaybackOf(os)|
    ensures var usb, seen := Seen(UsbPlan(os, |UsbOf(os)|)), Seen(Plan(os, m));
            && (LocatorSeen(seen, locator) <==> LocatorSeen(usb, locator) || LocalId(locator) in seen)
            && (LocalId(locator) in seen <==> Endpoint(os, m, locator) && !LocatorSeen(usb, locator))
  {
    hide Seen, UsbPlan, PlaybackOf, UsbOf, LocatorSeen, LocalId;
    if m == 0 {
      NoUsbLocals(os);
    } else {
      LocalSeenIff(os, m - 1, locator);
      var p := Plan(os, m - 1);
      var o := PlaybackOf(os)[m - 1];
      LocalSeenIff(os, m - 1, o.binding.value.locator);
      if !LocatorSeen(Seen(p), o.binding.value.locator) {
        SeenAfterLocal(p, o);
        PlanLocals(os, m - 1);
        LocalActKeeps(p, o);
        LocatorAfter(Seen(p), LocalId(o.binding.value.locator), o.binding.value, locator);
        if LocalId(locator) == LocalId(o.binding.value.locator) {
          LocalIdInjective(locator, o.binding.value.locator);
        }
      }
    }
  }

  lemma LocalIdInjective(a: string, b: string)
    requires LocalId(a) == LocalId(b)
    ensures a == b
  {
    assert LocalId(a)[6..] == a && LocalId(b)[6..] == b;
  }

  lemma LocatorAfter(seen: map<Id, seq<Binding>>, id: Id, b: Binding, locator: string)
    requires id !in seen
    ensures LocatorSeen(seen[id := [b]], locator) <==> LocatorSeen(seen, locator) || locator == b.locator
  {
    LocatorStaysSeen(seen, id, b, locator);
  }

  lemma {:induction false} OthersSeen(os: seq<Observation>, m: nat, id: Id)
    requires m <= |PlaybackOf(os)| && forall locator :: id != LocalId(locator)
    ensures var usb, seen := Seen(UsbPlan(os, |UsbOf(os)|)), Seen(Plan(os, m));
            (id in seen <==> id in usb) && (id in usb ==> seen[id] == usb[id])
  {
    hide Seen, UsbPlan, PlaybackOf, UsbOf, LocatorSeen, LocalId;
    if m > 0 {
      OthersSeen(os, m - 1, id);
      SeenAfterLocal(Plan(os, m - 1), PlaybackOf(os)[m - 1]);
    }
  }

  /** A USB device of the batch holds the locator. */
  ghost predicate UsbHolder(z: Registry, os: seq<Observation>, locator: string) {
    exists i :: 0 <= i < |UsbOf(os)| && HoldsLocator(z, IdAt(UsbOf(os), i), locator)
  }

  lemma UsbHolderIff(r: Registry, os: seq<Observation>, locator: string)
    requires Valid(r)
    ensures UsbHolder(Ingested(r, ActsOf(os)), os, locator) <==> LocatorSeen(Seen(UsbPlan(os, |UsbOf(os)|)), locator)
  {
    hide Ingested, Valid, Seen, Plan, UsbPlan, UsbOf, PlaybackOf, IdAt, HoldsLocator, Holds, UsbAct;
    var usb := UsbOf(os);
    var z := Ingested(r, ActsOf(os));
    var acts := UsbPlan(os, |usb|);
    var m := |PlaybackOf(os)|;
    PlanOk(os, m);
    UsbPlanOk(os, |usb|);
    if i :| 0 <= i < |usb| && HoldsLocator(z, IdAt(usb, i), locator) {
      NeverLocal(usb, i);
      HoldsIffSeen(r, ActsOf(os), IdAt(usb, i), locator);
      OthersSeen(os, m, IdAt(usb, i));
    }
    if id :| id in Seen(acts) && Holds(Seen(acts)[id], locator) {
      SeenAreActs(acts, id);
      var i :| 0 <= i < |acts| && acts[i].id == id;
      UsbActOk(os, i);
      NeverLocal(usb, i);
      OthersSeen(os, m, id);
      HoldsIffSeen(r, ActsOf(os), id, locator);
      assert HoldsLocator(z, IdAt(usb, i), locator);
    }
  }

  lemma NeverLocal(usb: seq<Observation>, i: nat)
    requires i < |usb|
    ensures forall locator :: IdAt(usb, i) != LocalId(locator)
  {
    forall locator {
      UsbIdIsNotLocal(usb, i, locator);
    }
  }

  /** After a re-scan the device named after a locator is available exactly when ALSA reports
      playback under that locator and no USB device of the batch holds it. */
  lemma LocalAvailableIff(r: Registry, os: seq<Observation>, locator: string)
    requires Valid(r)
    ensures "local:" + locator in Available(Ingested(r, ActsOf(os))) <==>
              && (exists e :: e in os && e.source == "alsa" && e.binding.Some? && e.binding.value.locator == locator)
              && !UsbHolder(Ingested(r, ActsOf(os)), os, locator)
  {
    hide Ingested, Valid, Seen, Plan, UsbPlan, UsbOf, PlaybackOf, UsbHolder, LocatorSeen;
    var m := |PlaybackOf(os)|;
    var z := Ingested(r, ActsOf(os));
    var id := LocalId(locator);
    PlanOk(os, m);
    IngestedReflects(r, ActsOf(os));
    AvailableIff(z, Seen(ActsOf(os)), id);
    LocalSeenIff(os, m, locator);
    UsbHolderIff(r, os, locator);
    EndpointIff(os, locator);
    PlanLocals(os, m);
    if id in Seen(ActsOf(os)) {
      EmptyHoldsNothing(Seen(ActsOf(os))[id]);
    }
  }

  lemma EndpointIff(os: seq<Observation>, locator: string)
    ensures Endpoint(os, |PlaybackOf(os)|, locator) <==>
              exists e :: e in os && e.source == "alsa" && e.binding.Some? && e.binding.value.locator == locator
  {
    hide PlaybackOf;
    var playback := PlaybackOf(os);
    if j :| 0 <= j < |playback| && playback[j].binding.value.locator == locator {
      CountedObservations(os, playback[j]);
    }
    if e :| e in os && e.source == "alsa" && e.binding.Some? && e.binding.value.locator == locator {
      CountedObservations(os, e);
      var j :| 0 <= j < |playback| && playback[j] == e;
    }
  }

  lemma {:induction false} PlanHasLocal(os: seq<Observation>, m: nat, j: nat)
    requires j < m <= |PlaybackOf(os)| && !LocatorSeen(Seen(Plan(os, j)), PlaybackOf(os)[j].binding.value.locator)
    ensures LocalAct(PlaybackOf(os)[j]) in Plan(os, m)
  {
    hide PlaybackOf, LocatorSeen, LocalAct;
    if j < m - 1 {
      PlanHasLocal(os, m - 1, j);
    }
  }

  /** Such a device is what the first endpoint with its locator says, known with low confidence. */
  lemma LocalDeviceRecorded(r: Registry, os: seq<Observation>, j: nat)
    requires Valid(r) && NoForgedNumbers(UsbOf(os), |UsbOf(os)|) && j < |PlaybackOf(os)|
    requires !Endpoint(os, j, PlaybackOf(os)[j].binding.value.locator)
    requires !UsbHolder(Ingested(r, ActsOf(os)), os, PlaybackOf(os)[j].binding.value.locator)
    ensures var z, o := Ingested(r, ActsOf(os)), PlaybackOf(os)[j];
            var id := "local:" + o.binding.value.locator;
            && id in z.records
            && z.records[id]
               == Record(Identity(o.vendorId, o.productId, UsefulSerial(o.serial), o.product, o.physicalPath, Low),
                         true, z.records[id].generation,
                         [o.binding.value.(generation := z.records[id].generation, currentlyAvailable := true)],
                         o.captureCapable)
  {
    hide Ingested, Valid, Seen, Plan, UsbPlan, UsbOf, PlaybackOf, UsbHolder, LocatorSeen, Endpoint, NoForgedNumbers, UsefulSerial;
    var m := |PlaybackOf(os)|;
    var o := PlaybackOf(os)[j];
    var acts := ActsOf(os);
    DistinctIdsIff(UsbOf(os));
    PlanDistinct(os, m);
    PlanOk(os, m);
    IngestedDone(r, acts);
    UsbHolderIff(r, os, o.binding.value.locator);
    LocalSeenIff(os, j, o.binding.value.locator);
    PlanHasLocal(os, m, j);
    assert Done(Ingested(r, acts), LocalAct(o));
  }
}
