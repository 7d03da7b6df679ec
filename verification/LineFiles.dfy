/** Text files of one record per line, and what is left of them after a cut at any character. */
module LineFiles {
  import opened Sequences
  import opened Wrappers

  /** How records become lines; `decode` fails on anything that is not one whole record. */
  datatype Codec<!R> = Codec(encode: R -> string, decode: string -> Option<R>)

  /** What JSON objects written on one line guarantee. */
  ghost predicate Lawful<R(!new)>(c: Codec<R>) {
    && (forall r :: c.encode(r) != "" && '\n' !in c.encode(r))
    && (forall r :: c.decode(c.encode(r)) == Some(r))
    // a proper prefix of a record is no record
    && (forall r, n :: 0 <= n < |c.encode(r)| ==> c.decode(c.encode(r)[..n]).None?)
    // nothing but whole records can precede a record on its line
    && (forall r, s, n :: 0 < n <= |c.encode(s)| ==> c.decode(c.encode(s)[..n] + c.encode(r)).None?)
  }

  lemma DecodesOwn<R(!new)>(c: Codec<R>, r: R)
    requires Lawful(c)
    ensures c.decode(c.encode(r)) == Some(r) && c.encode(r) != "" && '\n' !in c.encode(r)
  {
  }

  function FirstBreak(s: string): (n: nat)
    ensures n <= |s| && (n < |s| ==> s[n] == '\n') && '\n' !in s[..n]
  {
    if s == "" || s[0] == '\n' then 0
    else
      var n := FirstBreak(s[1..]);
      assert s[..n + 1] == [s[0]] + s[1..][..n];
      n + 1
  }

  /** `splitlines`: the text after the last line break counts as a line unless it is empty. */
  function Lines(s: string): seq<string> {
    if s == "" then []
    else
      var n := FirstBreak(s);
      [s[..n]] + (if n < |s| then Lines(s[n + 1..]) else [])
  }

  function FileOf<R>(c: Codec<R>, rs: seq<R>): string {
    if rs == [] then "" else c.encode(rs[0]) + "\n" + FileOf(c, rs[1..])
  }

  function Encoded<R>(c: Codec<R>, rs: seq<R>): seq<string> {
    if rs == [] then [] else [c.encode(rs[0])] + Encoded(c, rs[1..])
  }

  lemma {:induction false} BreakAt(p: string, s: string)
    requires '\n' !in p
    ensures FirstBreak(p + "\n" + s) == |p|
  {
    var t := p + "\n" + s;
    if p != "" {
      assert p[0] in p && t[1..] == p[1..] + "\n" + s;
      BreakAt(p[1..], s);
    }
  }

  lemma {:induction false} NoBreak(p: string)
    requires '\n' !in p
    ensures FirstBreak(p) == |p|
  {
    if p != "" {
      assert p[0] in p;
      NoBreak(p[1..]);
    }
  }

  lemma LinesCons(e: string, after: string)
    requires '\n' !in e
    ensures Lines(e + "\n" + after) == [e] + Lines(after)
  {
    var t := e + "\n" + after;
    BreakAt(e, after);
    assert t[..|e|] == e && t[|e| + 1..] == after;
  }

  /** The lines of some records followed by anything. */
  lemma {:induction false} LinesBehindFile<R(!new)>(c: Codec<R>, rs: seq<R>, tail: string)
    requires Lawful(c)
    ensures Lines(FileOf(c, rs) + tail) == Encoded(c, rs) + Lines(tail)
  {
    hide Lines;
    if rs == [] {
      assert FileOf(c, rs) + tail == tail;
    } else {
      var e := c.encode(rs[0]);
      var after := FileOf(c, rs[1..]) + tail;
      assert FileOf(c, rs) + tail == e + "\n" + after;
      LinesCons(e, after);
      LinesBehindFile(c, rs[1..], tail);
      assert Encoded(c, rs) + Lines(tail) == [e] + (Encoded(c, rs[1..]) + Lines(tail));
    }
  }

  /** The lines of some records followed by an unterminated rest. */
  lemma LinesOfFile<R(!new)>(c: Codec<R>, rs: seq<R>, rest: string)
    requires Lawful(c) && '\n' !in rest
    ensures Lines(FileOf(c, rs) + rest) == Encoded(c, rs) + (if rest == "" then [] else [rest])
  {
    LinesBehindFile(c, rs, rest);
    NoBreak(rest);
    assert rest[..|rest|] == rest;
  }

  lemma LineBehindFile<R(!new)>(c: Codec<R>, rs: seq<R>, line: string)
    requires Lawful(c) && '\n' !in line
    ensures Lines(FileOf(c, rs) + (line + "\n")) == Encoded(c, rs) + [line]
  {
    hide Lines;
    LinesBehindFile(c, rs, line + "\n");
    assert line + "\n" + "" == line + "\n";
    LinesCons(line, "");
    NoLines();
  }

  lemma {:induction false} FileOfConcat<R>(c: Codec<R>, a: seq<R>, b: seq<R>)
    ensures FileOf(c, a + b) == FileOf(c, a) + FileOf(c, b)
  {
    if a == [] {
      assert a + b == b;
    } else {
      assert (a + b)[0] == a[0] && (a + b)[1..] == a[1..] + b;
      FileOfConcat(c, a[1..], b);
      var e := c.encode(a[0]) + "\n";
      assert FileOf(c, a + b) == e + (FileOf(c, a[1..]) + FileOf(c, b));
      assert FileOf(c, a) + FileOf(c, b) == (e + FileOf(c, a[1..])) + FileOf(c, b);
    }
  }

  lemma FileOfOneMore<R>(c: Codec<R>, rs: seq<R>, r: R)
    ensures FileOf(c, rs + [r]) == FileOf(c, rs) + c.encode(r) + "\n"
  {
    FileOfConcat(c, rs, [r]);
    assert [r][1..] == [];
    assert FileOf(c, [r]) == c.encode(r) + "\n";
  }

  lemma {:induction false} EncodedConcat<R>(c: Codec<R>, a: seq<R>, b: seq<R>)
    ensures Encoded(c, a + b) == Encoded(c, a) + Encoded(c, b)
  {
    if a == [] {
      assert a + b == b;
    } else {
      assert (a + b)[0] == a[0] && (a + b)[1..] == a[1..] + b;
      EncodedConcat(c, a[1..], b);
    }
  }

  // ---------------------------------------------------------------------------
  // A cut at any character
  // ---------------------------------------------------------------------------

  /** How many records are whole in the first `k` characters, the last one with or without its
      line break. */
  function FullyWritten<R>(c: Codec<R>, rs: seq<R>, k: nat): (n: nat)
    ensures n <= |rs|
  {
    if rs == [] || k < |c.encode(rs[0])| then 0
    else 1 + FullyWritten(c, rs[1..], if k == |c.encode(rs[0])| then 0 else k - |c.encode(rs[0])| - 1)
  }

  /** How many of them also have their line break. */
  function Terminated<R>(c: Codec<R>, rs: seq<R>, k: nat): (n: nat)
    ensures n <= |rs|
  {
    if rs == [] || k <= |c.encode(rs[0])| then 0
    else 1 + Terminated(c, rs[1..], k - |c.encode(rs[0])| - 1)
  }

  /** What follows the last line break. */
  function Remnant<R>(c: Codec<R>, rs: seq<R>, k: nat): string {
    if rs == [] then ""
    else if k <= |c.encode(rs[0])| then c.encode(rs[0])[..k]
    else Remnant(c, rs[1..], k - |c.encode(rs[0])| - 1)
  }

  predicate EndsClean(s: string) {
    s == "" || s[|s| - 1] == '\n'
  }

  lemma NothingFull<R(!new)>(c: Codec<R>, rs: seq<R>)
    requires Lawful(c)
    ensures FullyWritten(c, rs, 0) == 0
  {
    if rs != [] {
      assert c.encode(rs[0]) != "";
    }
  }

  /** A file cut after `k` characters is its terminated lines and a remnant of the next. */
  ghost predicate SplitsAt<R>(c: Codec<R>, rs: seq<R>, k: nat)
    requires k <= |FileOf(c, rs)|
  {
    var n, rest := Terminated(c, rs, k), Remnant(c, rs, k);
    && FileOf(c, rs)[..k] == FileOf(c, rs[..n]) + rest
    && (n == |rs| ==> rest == "")
    && (n < |rs| ==> rest <= c.encode(rs[n]))
    && FullyWritten(c, rs, k) == (if n < |rs| && rest == c.encode(rs[n]) then n + 1 else n)
  }

  lemma CutFirstLine<R(!new)>(c: Codec<R>, rs: seq<R>, k: nat)
    requires Lawful(c) && rs != [] && k <= |c.encode(rs[0])|
    ensures k <= |FileOf(c, rs)| && SplitsAt(c, rs, k)
  {
    hide Lawful;
    assert FileOf(c, rs)[..k] == c.encode(rs[0])[..k];
    assert rs[..0] == [];
    DecodesOwn(c, rs[0]);
    NothingFull(c, rs[1..]);
  }

  lemma PrefixOfConcat(a: string, b: string, m: nat)
    requires m <= |b|
    ensures (a + b)[..|a| + m] == a + b[..m]
  {
  }

  lemma FileFirst<R>(c: Codec<R>, rs: seq<R>)
    requires rs != []
    ensures FileOf(c, rs) == (c.encode(rs[0]) + "\n") + FileOf(c, rs[1..])
  {
  }

  lemma CountsLater<R>(c: Codec<R>, rs: seq<R>, m: nat)
    requires rs != []
    ensures var k := m + |c.encode(rs[0])| + 1;
            && Terminated(c, rs, k) == Terminated(c, rs[1..], m) + 1
            && Remnant(c, rs, k) == Remnant(c, rs[1..], m)
            && FullyWritten(c, rs, k) == FullyWritten(c, rs[1..], m) + 1
  {
  }

  lemma CutLaterLine<R>(c: Codec<R>, rs: seq<R>, m: nat)
    requires rs != [] && m <= |FileOf(c, rs[1..])| && SplitsAt(c, rs[1..], m)
    ensures m + |c.encode(rs[0])| + 1 <= |FileOf(c, rs)| && SplitsAt(c, rs, m + |c.encode(rs[0])| + 1)
  {
    hide FileOf, Terminated, Remnant, FullyWritten;
    var line := c.encode(rs[0]) + "\n";
    var n := Terminated(c, rs[1..], m);
    CountsLater(c, rs, m);
    FileFirst(c, rs);
    PrefixOfConcat(line, FileOf(c, rs[1..]), m);
    assert rs[..n + 1][0] == rs[0] && rs[..n + 1][1..] == rs[1..][..n];
    FileFirst(c, rs[..n + 1]);
    ConcatAssociates(line, FileOf(c, rs[1..][..n]), Remnant(c, rs[1..], m));
  }

  lemma {:induction false} CutSplits<R(!new)>(c: Codec<R>, rs: seq<R>, k: nat)
    requires Lawful(c) && k <= |FileOf(c, rs)|
    ensures SplitsAt(c, rs, k)
  {
    hide Lawful;
    if rs == [] {
      assert FileOf(c, rs[..0]) == "";
    } else if k <= |c.encode(rs[0])| {
      CutFirstLine(c, rs, k);
    } else {
      CutSplits(c, rs[1..], k - |c.encode(rs[0])| - 1);
      CutLaterLine(c, rs, k - |c.encode(rs[0])| - 1);
    }
  }

  /** Every whole line of a cut file decodes, and a torn last line does not. */
  lemma CutLines<R(!new)>(c: Codec<R>, rs: seq<R>, k: nat)
    requires Lawful(c) && k <= |FileOf(c, rs)|
    ensures var n, rest, full := Terminated(c, rs, k), Remnant(c, rs, k), FullyWritten(c, rs, k);
            Lines(FileOf(c, rs)[..k]) ==
              if rest == "" then Encoded(c, rs[..full])
              else if full == n + 1 then Encoded(c, rs[..full])
              else Encoded(c, rs[..full]) + [rest]
    ensures Remnant(c, rs, k) != "" && FullyWritten(c, rs, k) == Terminated(c, rs, k) ==> c.decode(Remnant(c, rs, k)).None?
  {
    hide FullyWritten, Terminated, Remnant, Lines, FileOf;
    var n, rest, full := Terminated(c, rs, k), Remnant(c, rs, k), FullyWritten(c, rs, k);
    CutSplits(c, rs, k);
    if n < |rs| {
      RestHasNoBreak(c.encode(rs[n]), rest);
      assert c.encode(rs[n]) != "";
    }
    LinesOfFile(c, rs[..n], rest);
    if rest == "" {
    } else if full == n + 1 {
      assert rs[..full] == rs[..n] + [rs[n]];
      EncodedConcat(c, rs[..n], [rs[n]]);
      assert [rs[n]][1..] == [];
      assert Encoded(c, [rs[n]]) == [rest];
    } else {
      assert rest == c.encode(rs[n])[..|rest|];
    }
  }

  lemma RestHasNoBreak(e: string, rest: string)
    requires '\n' !in e && rest <= e
    ensures '\n' !in rest
  {
    forall i | 0 <= i < |rest|
      ensures rest[i] != '\n'
    {
      assert rest[i] == e[i] && e[i] in e;
    }
  }

  /** The cut ends at a line boundary exactly when nothing follows the last line break. */
  lemma {:induction false} CleanIff<R(!new)>(c: Codec<R>, rs: seq<R>, k: nat)
    requires Lawful(c) && k <= |FileOf(c, rs)|
    ensures EndsClean(FileOf(c, rs)[..k]) <==> Remnant(c, rs, k) == ""
  {
    if rs != [] {
      var e := c.encode(rs[0]);
      if k <= |e| {
        assert FileOf(c, rs)[..k] == e[..k];
        if k > 0 {
          assert e[k - 1] in e;
        }
      } else {
        var m := k - |e| - 1;
        CleanIff(c, rs[1..], m);
        assert FileOf(c, rs)[..k] == e + "\n" + FileOf(c, rs[1..])[..m];
      }
    }
  }

  lemma CleanSplits(file: string) returns (first: string, rest: string)
    requires EndsClean(file) && file != ""
    ensures file == first + "\n" + rest && '\n' !in first && EndsClean(rest)
    ensures Lines(file) == [first] + Lines(rest) && |rest| < |file|
  {
    var n := FirstBreak(file);
    assert file[..|file|] == file;
    assert file[|file| - 1] in file;
    first, rest := file[..n], file[n + 1..];
  }

  lemma Regrouped(first: string, rest: string, line: string)
    ensures first + "\n" + rest + line + "\n" == first + "\n" + (rest + line + "\n")
  {
  }

  /** A line written to a file that ends at a line boundary becomes its last line. */
  lemma {:induction false} LinesGrow(file: string, line: string)
    requires EndsClean(file) && '\n' !in line
    ensures Lines(file + line + "\n") == Lines(file) + [line]
    decreases |file|
  {
    hide Lines, EndsClean;
    if file == "" {
      assert file + line + "\n" == line + "\n" + "";
      LinesCons(line, "");
      NoLines();
    } else {
      var first, rest := CleanSplits(file);
      Regrouped(first, rest, line);
      LinesCons(first, rest + line + "\n");
      LinesGrow(rest, line);
      assert Lines(file) + [line] == [first] + (Lines(rest) + [line]);
    }
  }

  lemma NoLines()
    ensures Lines("") == []
  {
  }
}
