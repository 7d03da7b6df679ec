/** The order in which texts are sorted. */
module TextOrder {
  predicate Before(a: string, b: string) {
    if b == "" then false
    else if a == "" then true
    else a[0] < b[0] || (a[0] == b[0] && Before(a[1..], b[1..]))
  }

  lemma {:induction false} BeforeCommonPrefix(p: string, a: string, b: string)
    ensures Before(p + a, p + b) == Before(a, b)
  {
    if p == "" {
      assert p + a == a && p + b == b;
    } else {
      assert (p + a)[0] == (p + b)[0] && (p + a)[1..] == p[1..] + a && (p + b)[1..] == p[1..] + b;
      BeforeCommonPrefix(p[1..], a, b);
    }
  }

  /** Texts of one length are ordered as their first difference. */
  lemma {:induction false} BeforeExtends(a: string, b: string, x: string, y: string)
    requires |a| == |b| && Before(a, b)
    ensures Before(a + x, b + y)
  {
    assert (a + x)[0] == a[0] && (b + y)[0] == b[0];
    if a[0] == b[0] {
      assert (a + x)[1..] == a[1..] + x && (b + y)[1..] == b[1..] + y;
      BeforeExtends(a[1..], b[1..], x, y);
    }
  }

  lemma {:induction false} BeforeAsymmetric(a: string, b: string)
    requires Before(a, b)
    ensures !Before(b, a)
  {
    if a != "" && a[0] == b[0] {
      BeforeAsymmetric(a[1..], b[1..]);
    }
  }

  lemma {:induction false} BeforeIrreflexive(a: string)
    ensures !Before(a, a)
  {
    if a != "" {
      BeforeIrreflexive(a[1..]);
    }
  }

  lemma {:induction false} BeforeTransitive(a: string, b: string, c: string)
    requires Before(a, b) && Before(b, c)
    ensures Before(a, c)
  {
    if a != "" && a[0] == b[0] == c[0] {
      BeforeTransitive(a[1..], b[1..], c[1..]);
    }
  }

  lemma {:induction false} BeforeTotal(a: string, b: string)
    ensures Before(a, b) || a == b || Before(b, a)
  {
    if a != "" && b != "" && a[0] == b[0] {
      BeforeTotal(a[1..], b[1..]);
      assert a == [a[0]] + a[1..] && b == [b[0]] + b[1..];
    }
  }

  function Inserted(texts: seq<string>, a: string): seq<string> {
    if texts != [] && Before(texts[0], a) then [texts[0]] + Inserted(texts[1..], a) else [a] + texts
  }

  function Sorted(texts: seq<string>): seq<string> {
    if texts == [] then [] else Inserted(Sorted(texts[1..]), texts[0])
  }

  ghost predicate Ascending(texts: seq<string>) {
    forall i, j :: 0 <= i < j < |texts| ==> !Before(texts[j], texts[i])
  }

  lemma {:induction false} InsertedHolds(texts: seq<string>, a: string, b: string)
    ensures b in Inserted(texts, a) <==> b == a || b in texts
  {
    if texts != [] && Before(texts[0], a) {
      InsertedHolds(texts[1..], a, b);
      assert texts == [texts[0]] + texts[1..];
    }
  }

  lemma {:induction false} InsertedAscends(texts: seq<string>, a: string)
    requires Ascending(texts)
    ensures Ascending(Inserted(texts, a))
  {
    var r := Inserted(texts, a);
    if texts != [] && Before(texts[0], a) {
      InsertedAscends(texts[1..], a);
      forall j | 0 < j < |r|
        ensures !Before(r[j], r[0])
      {
        InsertedHolds(texts[1..], a, r[j]);
        assert r[j] in Inserted(texts[1..], a);
        BeforeAsymmetric(texts[0], a);
      }
    } else if texts != [] {
      forall j | 0 < j < |r|
        ensures !Before(r[j], r[0])
      {
        NotBeforeFirst(texts, a, j - 1);
      }
    }
  }

  lemma NotBeforeFirst(texts: seq<string>, a: string, i: nat)
    requires Ascending(texts) && i < |texts| && !Before(texts[0], a)
    ensures !Before(texts[i], a)
  {
    if i > 0 && Before(texts[i], a) {
      BeforeTotal(texts[0], a);
      if texts[0] != a {
        BeforeTransitive(texts[i], a, texts[0]);
      }
    }
  }

  /** Sorting keeps the texts and puts them in order. */
  lemma {:induction false} SortedIsSorted(texts: seq<string>, a: string)
    ensures a in Sorted(texts) <==> a in texts
    ensures Ascending(Sorted(texts))
  {
    if texts != [] {
      SortedIsSorted(texts[1..], a);
      InsertedHolds(Sorted(texts[1..]), texts[0], a);
      InsertedAscends(Sorted(texts[1..]), texts[0]);
      assert texts == [texts[0]] + texts[1..];
    }
  }
}
