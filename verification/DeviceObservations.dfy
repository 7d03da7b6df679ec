/** What the operating system reports about audio devices, and the identity each report gets. */
module DeviceObservations {
  import opened Wrappers
  import opened Decimals
  import opened Texts

  type Id = string

  datatype BindingKind = AlsaPcm | PipewireNode | Other

  datatype Binding = Binding(kind: BindingKind, locator: string, generation: nat, currentlyAvailable: bool,
                             cardIndex: Option<int>, pcmDevice: Option<int>, pcmSubdevice: Option<int>,
                             signature: Option<string>)

  datatype Observation = Observation(source: string, vendorId: Option<string>, productId: Option<string>,
                                     serial: Option<string>, product: Option<string>, physicalPath: Option<string>,
                                     binding: Option<Binding>, captureCapable: bool)

  datatype Confidence = High | Medium | Low | Ambiguous

  datatype Identity = Identity(vendorId: Option<string>, productId: Option<string>, serial: Option<string>,
                               product: Option<string>, physicalPath: Option<string>, confidence: Confidence)

  predicate Present(s: Option<string>) {
    s.Some? && s.value != ""
  }

  // ---------------------------------------------------------------------------
  // Useful serials
  // ---------------------------------------------------------------------------

  /** Empty serials and those made of one repeated character identify nothing. */
  function UsefulSerial(serial: Option<string>): Option<string> {
    if serial.None? then None
    else
      var value := Strip(serial.value);
      if forall c, d :: c in value && d in value ==> c == d then None else Some(value)
  }

  // ---------------------------------------------------------------------------
  // Identities of a batch of USB observations
  // ---------------------------------------------------------------------------

  /** How many of the first `n` observations carry the useful serial `s`. */
  function SerialCount(usb: seq<Observation>, n: nat, s: string): nat
    requires n <= |usb|
  {
    if n == 0 then 0
    else SerialCount(usb, n - 1, s) + (if UsefulSerial(usb[n - 1].serial) == Some(s) then 1 else 0)
  }

  /** A serial seen on two devices at once identifies neither. */
  function IdentifyingSerial(usb: seq<Observation>, o: Observation): Option<string> {
    var serial := UsefulSerial(o.serial);
    if serial.Some? && SerialCount(usb, |usb|, serial.value) > 1 then None else serial
  }

  function Text(s: Option<string>): string {
    if s.Some? then s.value else ""
  }

  function BaseId(usb: seq<Observation>, o: Observation): Id {
    var serial := IdentifyingSerial(usb, o);
    if serial.Some? then "usb:" + Text(o.vendorId) + ":" + Text(o.productId) + ":" + serial.value
    else if Present(o.physicalPath) then "usb:" + Text(o.vendorId) + ":" + Text(o.productId) + ":" + o.physicalPath.value
    else "sysfs:" + (if Present(o.product) then o.product.value else "usb")
  }

  /** An identity already taken in the batch gets the number of identities taken as a suffix. */
  function Suffixed(base: Id, taken: set<Id>): Id {
    if base in taken then base + "#" + Decimal(|taken|) else base
  }

  /** The identities of the first `n` observations. */
  function Taken(usb: seq<Observation>, n: nat): set<Id>
    requires n <= |usb|
    decreases n, 0
  {
    if n == 0 then {} else Taken(usb, n - 1) + {IdAt(usb, n - 1)}
  }

  function IdAt(usb: seq<Observation>, n: nat): Id
    requires n < |usb|
    decreases n, 1
  {
    Suffixed(BaseId(usb, usb[n]), Taken(usb, n))
  }

  function ConfidenceOf(usb: seq<Observation>, id: Id, o: Observation): Confidence {
    if IdentifyingSerial(usb, o).Some? then High
    else if '#' in id then Ambiguous
    else if Present(o.physicalPath) then Medium
    else Low
  }

  function IdentityOf(o: Observation, c: Confidence): Identity {
    Identity(o.vendorId, o.productId, UsefulSerial(o.serial), o.product, o.physicalPath, c)
  }

  // ---------------------------------------------------------------------------
  // When the identities of a batch are distinct
  // ---------------------------------------------------------------------------

  ghost predicate DistinctIds(usb: seq<Observation>) {
    DistinctBelow(usb, |usb|)
  }

  ghost predicate DistinctBelow(usb: seq<Observation>, n: nat)
    requires n <= |usb|
  {
    forall i, j :: 0 <= i < j < n ==> IdAt(usb, i) != IdAt(usb, j)
  }

  function BaseAt(usb: seq<Observation>, i: nat): Id
    requires i < |usb|
  {
    BaseId(usb, usb[i])
  }

  function Numbered(base: Id, n: nat): Id {
    base + "#" + Decimal(n)
  }

  /** The fields of an earlier device give the base of device `j`, or the base and number of an
      earlier repeated device do. */
  ghost predicate Repeated(usb: seq<Observation>, j: nat)
    requires j < |usb|
    decreases j, 0
  {
    exists i :: 0 <= i < j && Claims(usb, i, BaseAt(usb, j))
  }

  ghost predicate Claims(usb: seq<Observation>, i: nat, id: Id)
    requires i < |usb|
    decreases i, 1
  {
    BaseAt(usb, i) == id || (Repeated(usb, i) && id == Numbered(BaseAt(usb, i), i))
  }

  /** No raw field spells the number that a repeated later device gets. */
  ghost predicate NoForgedNumbers(usb: seq<Observation>, n: nat)
    requires n <= |usb|
  {
    forall i, j :: 0 <= i < j < n ==> !(Repeated(usb, j) && BaseAt(usb, i) == Numbered(BaseAt(usb, j), j))
  }

  lemma {:induction false} TakenIff(usb: seq<Observation>, n: nat, id: Id)
    requires n <= |usb|
    ensures id in Taken(usb, n) <==> exists i :: 0 <= i < n && IdAt(usb, i) == id
  {
    hide IdAt;
    if n > 0 {
      TakenIff(usb, n - 1, id);
      assert id in Taken(usb, n) <==> id in Taken(usb, n - 1) || IdAt(usb, n - 1) == id;
      assert IdAt(usb, n - 1) == id ==> exists i :: 0 <= i < n && IdAt(usb, i) == id;
    }
  }

  lemma {:induction false} TakenCounts(usb: seq<Observation>, n: nat)
    requires n <= |usb| && DistinctBelow(usb, n)
    ensures |Taken(usb, n)| == n
  {
    hide IdAt;
    if n > 0 {
      TakenCounts(usb, n - 1);
      TakenIff(usb, n - 1, IdAt(usb, n - 1));
    }
  }

  /** While the identities are distinct, the repeated devices are those that get a number, and
      the number is their place in the batch. */
  lemma {:induction false} RepeatedIsNumbered(usb: seq<Observation>, j: nat)
    requires j < |usb| && DistinctBelow(usb, j)
    ensures Repeated(usb, j) <==> BaseAt(usb, j) in Taken(usb, j)
    ensures IdAt(usb, j) == if Repeated(usb, j) then Numbered(BaseAt(usb, j), j) else BaseAt(usb, j)
  {
    hide BaseId, Taken;
    var base := BaseAt(usb, j);
    TakenIff(usb, j, base);
    TakenCounts(usb, j);
    forall i | 0 <= i < j
      ensures IdAt(usb, i) == base ==> Claims(usb, i, base)
      ensures Claims(usb, i, base) ==> base in Taken(usb, j)
    {
      RepeatedIsNumbered(usb, i);
      if Claims(usb, i, base) {
        if IdAt(usb, i) != base {
          TakenGrows(usb, i, j, base);
        }
      }
    }
  }

  lemma {:induction false} TakenGrows(usb: seq<Observation>, m: nat, n: nat, id: Id)
    requires m <= n <= |usb| && id in Taken(usb, m)
    ensures id in Taken(usb, n)
  {
    hide IdAt;
    if m < n {
      TakenGrows(usb, m, n - 1, id);
    }
  }

  /** The identity of device `j` is taken exactly when it gets a number that a raw field spells. */
  lemma ClashIff(usb: seq<Observation>, j: nat)
    requires j < |usb| && DistinctBelow(usb, j)
    ensures IdAt(usb, j) in Taken(usb, j) <==>
              exists i :: 0 <= i < j && Repeated(usb, j) && BaseAt(usb, i) == Numbered(BaseAt(usb, j), j)
  {
    hide IdAt, Taken, Repeated, BaseAt, Numbered;
    RepeatedIsNumbered(usb, j);
    var id := IdAt(usb, j);
    TakenIff(usb, j, id);
    forall i | 0 <= i < j && Repeated(usb, j)
      ensures IdAt(usb, i) == id ==> BaseAt(usb, i) == id
      ensures BaseAt(usb, i) == id ==> id in Taken(usb, j)
    {
      RepeatedIsNumbered(usb, i);
      if IdAt(usb, i) == id && BaseAt(usb, i) != id {
        NumbersDiffer(BaseAt(usb, i), BaseAt(usb, j), i, j);
      }
      if BaseAt(usb, i) == id && IdAt(usb, i) != id {
        TakenGrows(usb, i, j, id);
      }
    }
  }

  lemma NumbersDiffer(a: Id, b: Id, m: nat, n: nat)
    requires m != n
    ensures Numbered(a, m) != Numbered(b, n)
  {
    if Numbered(a, m) == Numbered(b, n) {
      NumberSplits(a, b, m, n);
    }
  }

  lemma DistinctNext(usb: seq<Observation>, n: nat)
    requires n < |usb| && DistinctBelow(usb, n)
    ensures DistinctBelow(usb, n + 1) <==> IdAt(usb, n) !in Taken(usb, n)
  {
    hide IdAt, Taken;
    TakenIff(usb, n, IdAt(usb, n));
    if IdAt(usb, n) !in Taken(usb, n) {
      forall i, j | 0 <= i < j < n + 1
        ensures IdAt(usb, i) != IdAt(usb, j)
      {
        if j < n {
          assert DistinctBelow(usb, n);
        }
      }
    }
  }

  lemma {:induction false} DistinctBelowIff(usb: seq<Observation>, n: nat)
    requires n <= |usb|
    ensures DistinctBelow(usb, n) <==> NoForgedNumbers(usb, n)
  {
    hide IdAt, Taken, Repeated, BaseAt, Numbered;
    if n > 0 {
      DistinctBelowIff(usb, n - 1);
      if DistinctBelow(usb, n - 1) {
        ClashIff(usb, n - 1);
        DistinctNext(usb, n - 1);
      }
    }
  }

  /** Every device of a batch has its own identity exactly when no raw field of it spells the
      number that a repeated later device gets. */
  lemma DistinctIdsIff(usb: seq<Observation>)
    ensures DistinctIds(usb) <==> NoForgedNumbers(usb, |usb|)
  {
    DistinctBelowIff(usb, |usb|);
  }

  /** In particular raw fields without `#` give distinct identities. */
  lemma PlainBasesAreDistinct(usb: seq<Observation>)
    requires forall i :: 0 <= i < |usb| ==> '#' !in BaseAt(usb, i)
    ensures DistinctIds(usb)
  {
    hide Repeated, BaseId;
    forall i, j | 0 <= i < j < |usb|
      ensures BaseAt(usb, i) != Numbered(BaseAt(usb, j), j)
    {
      assert Numbered(BaseAt(usb, j), j)[|BaseAt(usb, j)|] == '#';
    }
    DistinctIdsIff(usb);
  }

  function Unnamed(product: string): Observation {
    Observation("usb", Some("1"), Some("2"), None, Some(product), None, None, false)
  }

  /** With a `#` in a raw field two devices of one batch can share an identity. */
  lemma HashCollides()
    ensures !DistinctIds([Unnamed("A#2"), Unnamed("A"), Unnamed("A")])
  {
    hide SerialCount, UsefulSerial;
    var usb := [Unnamed("A#2"), Unnamed("A"), Unnamed("A")];
    assert UsefulSerial(None).None? by { NoSerial(); }
    assert BaseId(usb, usb[0]) == "sysfs:A#2" && BaseId(usb, usb[1]) == "sysfs:A" && BaseId(usb, usb[2]) == "sysfs:A";
    assert Taken(usb, 0) == {};
    assert IdAt(usb, 0) == "sysfs:A#2";
    assert Taken(usb, 1) == {"sysfs:A#2"};
    assert IdAt(usb, 1) == "sysfs:A";
    assert Taken(usb, 2) == {"sysfs:A#2", "sysfs:A"};
    assert "sysfs:A#2"[7] == '#';
    assert |Taken(usb, 2)| == 2 && Decimal(2) == "2";
    assert "sysfs:A" + "#" + "2" == "sysfs:A#2";
    assert IdAt(usb, 2) == "sysfs:A#2";
  }

  lemma NoSerial()
    ensures UsefulSerial(None).None?
  {
  }

  lemma {:induction false} CountedOnce(usb: seq<Observation>, n: nat, i: nat, s: string)
    requires i < n <= |usb| && UsefulSerial(usb[i].serial) == Some(s)
    ensures SerialCount(usb, n, s) >= 1
  {
    hide UsefulSerial;
    if i < n - 1 {
      CountedOnce(usb, n - 1, i, s);
    }
  }

  lemma {:induction false} CountedTwice(usb: seq<Observation>, n: nat, i: nat, j: nat, s: string)
    requires i < j < n <= |usb| && UsefulSerial(usb[i].serial) == UsefulSerial(usb[j].serial) == Some(s)
    ensures SerialCount(usb, n, s) >= 2
  {
    hide UsefulSerial;
    if j < n - 1 {
      CountedTwice(usb, n - 1, i, j, s);
    } else {
      CountedOnce(usb, n - 1, i, s);
    }
  }

  /** A serial identifies a device only when no other device of the batch reports it: two
      simultaneous devices with one serial get no high confidence from it. */
  lemma SharedSerialIdentifiesNobody(usb: seq<Observation>, i: nat, j: nat)
    requires i < |usb| && j < |usb| && i != j
    requires UsefulSerial(usb[i].serial) == UsefulSerial(usb[j].serial)
    ensures IdentifyingSerial(usb, usb[i]).None?
    ensures !ConfidenceOf(usb, IdAt(usb, i), usb[i]).High?
  {
    hide UsefulSerial, Suffixed, BaseId;
    var serial := UsefulSerial(usb[i].serial);
    if serial.Some? {
      CountedTwice(usb, |usb|, if i < j then i else j, if i < j then j else i, serial.value);
    }
  }
}
