/** The append-only, hash-chained event journal. */
module EventJournal {
  import opened Wrappers
  import opened LineFiles

  /** `body` is the canonical text of the fields the chain does not look at. */
  datatype Entry = Entry(number: nat, body: string, previous: string, digest: string)

  /** The digest of an entry covers everything but the digest itself. */
  type Hash = (nat, string, string) -> string

  /** Injective and never empty, as SHA-256 is taken to be. */
  ghost predicate Sound(h: Hash) {
    && (forall n, b, p :: h(n, b, p) != "")
    && (forall n, b, p, n', b', p' :: h(n, b, p) == h(n', b', p') ==> n == n' && b == b' && p == p')
  }

  predicate Follows(h: Hash, e: Entry, previous: string) {
    e.previous == previous && e.digest == h(e.number, e.body, e.previous)
  }

  /** The entries of the longest valid prefix of `lines`. */
  function Good(c: Codec<Entry>, h: Hash, lines: seq<string>, previous: string): (es: seq<Entry>)
    ensures |es| <= |lines|
  {
    if lines == [] then []
    else
      var e := c.decode(lines[0]);
      if e.Some? && Follows(h, e.value, previous) then [e.value] + Good(c, h, lines[1..], e.value.digest) else []
  }

  datatype Verdict = Verdict(entries: seq<Entry>, firstBad: Option<nat>)

  function Validate(c: Codec<Entry>, h: Hash, file: string): Verdict {
    var good := Good(c, h, Lines(file), "");
    Verdict(good, if |good| == |Lines(file)| then None else Some(|good|))
  }

  /** The entries form a hash chain that starts after `previous`. */
  predicate Chained(h: Hash, es: seq<Entry>, previous: string) {
    es == [] || (Follows(h, es[0], previous) && Chained(h, es[1..], es[0].digest))
  }

  function LastDigest(es: seq<Entry>, previous: string): string {
    if es == [] then previous else es[|es| - 1].digest
  }

  // ---------------------------------------------------------------------------
  // The object
  // ---------------------------------------------------------------------------

  datatype Journal = Journal(file: string, number: nat, lastDigest: string)

  function LastNumber(es: seq<Entry>): nat {
    if es == [] then 0 else es[|es| - 1].number
  }

  function Opened(c: Codec<Entry>, h: Hash, file: string): Journal {
    var es := Validate(c, h, file).entries;
    Journal(file, LastNumber(es), LastDigest(es, ""))
  }

  function NextEntry(h: Hash, j: Journal, body: string): Entry {
    Entry(j.number + 1, body, j.lastDigest, h(j.number + 1, body, j.lastDigest))
  }

  function Appended(c: Codec<Entry>, h: Hash, j: Journal, body: string): Journal {
    var e := NextEntry(h, j, body);
    Journal(j.file + c.encode(e) + "\n", e.number, e.digest)
  }

  function AppendedAll(c: Codec<Entry>, h: Hash, j: Journal, bodies: seq<string>): Journal
    decreases |bodies|
  {
    if bodies == [] then j else AppendedAll(c, h, Appended(c, h, j, bodies[0]), bodies[1..])
  }

  method ValidateJournal(c: Codec<Entry>, h: Hash, file: string) returns (v: Verdict)
    ensures v == Validate(c, h, file)
  {
    var lines := Lines(file);
    var good: seq<Entry> := [];
    var previous := "";
    for index := 0 to |lines|
      invariant |good| == index
      invariant Good(c, h, lines, "") == good + Good(c, h, lines[index..], previous)
    {
      var e := c.decode(lines[index]);
      assert lines[index..][0] == lines[index] && lines[index..][1..] == lines[index + 1..];
      if e.None? || !Follows(h, e.value, previous) {
        assert good + [] == good;
        return Verdict(good, Some(index));
      }
      previous := e.value.digest;
      assert good + ([e.value] + Good(c, h, lines[index + 1..], previous)) == good + [e.value] + Good(c, h, lines[index + 1..], previous);
      good := good + [e.value];
    }
    assert lines[|lines|..] == [];
    v := Verdict(good, None);
  }

  class EventJournal {
    const codec: Codec<Entry>
    const hash: Hash
    var file: string
    var number: nat
    var lastDigest: string

    function View(): Journal
      reads this
    {
      Journal(file, number, lastDigest)
    }

    constructor (codec: Codec<Entry>, hash: Hash, file: string)
      ensures this.codec == codec && this.hash == hash && View() == Opened(codec, hash, file)
    {
      var v := ValidateJournal(codec, hash, file);
      this.codec, this.hash, this.file := codec, hash, file;
      number := LastNumber(v.entries);
      lastDigest := LastDigest(v.entries, "");
    }

    method Append(body: string) returns (e: Entry)
      modifies this
      ensures View() == Appended(codec, hash, old(View()), body) && e == NextEntry(hash, old(View()), body)
    {
      number := number + 1;
      e := Entry(number, body, lastDigest, hash(number, body, lastDigest));
      file := file + codec.encode(e) + "\n";
      lastDigest := e.digest;
    }
  }

  // ---------------------------------------------------------------------------
  // Validation
  // ---------------------------------------------------------------------------

  lemma GoodFirst(c: Codec<Entry>, h: Hash, e: Entry, lines: seq<string>, previous: string)
    requires Lawful(c) && Follows(h, e, previous)
    ensures Good(c, h, [c.encode(e)] + lines, previous) == [e] + Good(c, h, lines, e.digest)
  {
    hide Follows, Lawful;
    DecodesOwn(c, e);
    assert ([c.encode(e)] + lines)[1..] == lines;
  }

  /** A chain validates up to whatever follows it. */
  lemma {:induction false} GoodOfChain(c: Codec<Entry>, h: Hash, es: seq<Entry>, more: seq<string>, previous: string)
    requires Lawful(c) && Chained(h, es, previous)
    ensures Good(c, h, Encoded(c, es) + more, previous) == es + Good(c, h, more, LastDigest(es, previous))
  {
    hide Follows, Lawful, Good;
    if es == [] {
      assert Encoded(c, es) + more == more;
      assert [] + Good(c, h, more, previous) == Good(c, h, more, previous);
    } else {
      var lines := Encoded(c, es[1..]) + more;
      assert Encoded(c, es) + more == [c.encode(es[0])] + lines;
      GoodFirst(c, h, es[0], lines, previous);
      GoodOfChain(c, h, es[1..], more, es[0].digest);
      assert LastDigest(es, previous) == LastDigest(es[1..], es[0].digest);
      var rest := Good(c, h, more, LastDigest(es, previous));
      assert [es[0]] + (es[1..] + rest) == es + rest;
    }
  }

  lemma {:induction false} EncodedLength(c: Codec<Entry>, es: seq<Entry>)
    ensures |Encoded(c, es)| == |es|
  {
    if es != [] {
      EncodedLength(c, es[1..]);
    }
  }

  lemma {:induction false} ChainedPrefix(h: Hash, es: seq<Entry>, n: nat, previous: string)
    requires n <= |es| && Chained(h, es, previous)
    ensures Chained(h, es[..n], previous)
  {
    if n > 0 {
      assert es[..n][0] == es[0] && es[..n][1..] == es[1..][..n - 1];
      ChainedPrefix(h, es[1..], n - 1, es[0].digest);
    }
  }

  lemma {:induction false} ChainedMore(h: Hash, es: seq<Entry>, e: Entry, previous: string)
    requires Chained(h, es, previous) && Follows(h, e, LastDigest(es, previous))
    ensures Chained(h, es + [e], previous)
  {
    if es == [] {
      assert (es + [e])[1..] == [];
    } else {
      assert (es + [e])[0] == es[0] && (es + [e])[1..] == es[1..] + [e];
      assert LastDigest(es, previous) == LastDigest(es[1..], es[0].digest);
      ChainedMore(h, es[1..], e, es[0].digest);
    }
  }

  /** Cutting the file at any character leaves exactly the entries fully written; the rest is
      reported exactly when an entry is torn. */
  lemma CutValidates(c: Codec<Entry>, h: Hash, es: seq<Entry>, k: nat)
    requires Lawful(c) && Chained(h, es, "") && k <= |FileOf(c, es)|
    ensures var full := FullyWritten(c, es, k);
            && Validate(c, h, FileOf(c, es)[..k]).entries == es[..full]
            && (Validate(c, h, FileOf(c, es)[..k]).firstBad.None? <==> Remnant(c, es, k) == "" || full > Terminated(c, es, k))
  {
    hide FullyWritten, Remnant, Terminated, Lines;
    var full, rest := FullyWritten(c, es, k), Remnant(c, es, k);
    CutLines(c, es, k);
    CutSplits(c, es, k);
    ChainedPrefix(h, es, full, "");
    EncodedLength(c, es[..full]);
    if rest == "" || full == Terminated(c, es, k) + 1 {
      GoodOfChain(c, h, es[..full], [], "");
      assert Encoded(c, es[..full]) + [] == Encoded(c, es[..full]);
    } else {
      GoodOfChain(c, h, es[..full], [rest], "");
    }
  }

  // ---------------------------------------------------------------------------
  // Appending
  // ---------------------------------------------------------------------------

  /** A journal on a wholly valid, terminated file, continuing after its last entry. */
  ghost predicate Holds(c: Codec<Entry>, h: Hash, j: Journal, es: seq<Entry>) {
    && Validate(c, h, j.file) == Verdict(es, None)
    && EndsClean(j.file)
    && j.number == LastNumber(es) && j.lastDigest == LastDigest(es, "")
  }

  lemma {:induction false} GoodGrows(c: Codec<Entry>, h: Hash, lines: seq<string>, line: string, previous: string)
    requires |Good(c, h, lines, previous)| == |lines|
    ensures Good(c, h, lines + [line], previous)
         == Good(c, h, lines, previous) + Good(c, h, [line], LastDigest(Good(c, h, lines, previous), previous))
  {
    if lines == [] {
      assert lines + [line] == [line];
    } else {
      var e := c.decode(lines[0]).value;
      assert (lines + [line])[0] == lines[0] && (lines + [line])[1..] == lines[1..] + [line];
      GoodGrows(c, h, lines[1..], line, e.digest);
      assert LastDigest(Good(c, h, lines, previous), previous) == LastDigest(Good(c, h, lines[1..], e.digest), e.digest);
    }
  }

  lemma AppendHolds(c: Codec<Entry>, h: Hash, j: Journal, es: seq<Entry>, body: string)
    requires Lawful(c) && Holds(c, h, j, es)
    ensures Holds(c, h, Appended(c, h, j, body), es + [NextEntry(h, j, body)])
  {
    hide Lines;
    var e := NextEntry(h, j, body);
    var lines := Lines(j.file);
    LinesGrow(j.file, c.encode(e));
    GoodGrows(c, h, lines, c.encode(e), "");
    assert c.decode(c.encode(e)) == Some(e);
    assert Good(c, h, [c.encode(e)], j.lastDigest) == [e];
  }

  function NextEntries(c: Codec<Entry>, h: Hash, j: Journal, bodies: seq<string>): (es: seq<Entry>)
    ensures |es| == |bodies| && forall i :: 0 <= i < |es| ==> es[i].body == bodies[i]
    decreases |bodies|
  {
    if bodies == [] then []
    else [NextEntry(h, j, bodies[0])] + NextEntries(c, h, Appended(c, h, j, bodies[0]), bodies[1..])
  }

  lemma {:induction false} AppendAllHolds(c: Codec<Entry>, h: Hash, j: Journal, es: seq<Entry>, bodies: seq<string>)
    requires Lawful(c) && Holds(c, h, j, es)
    ensures Holds(c, h, AppendedAll(c, h, j, bodies), es + NextEntries(c, h, j, bodies))
    decreases |bodies|
  {
    hide Holds, Appended, NextEntry, Lawful;
    if bodies == [] {
      assert es + [] == es;
    } else {
      AppendHolds(c, h, j, es, bodies[0]);
      var e := NextEntry(h, j, bodies[0]);
      AppendAllHolds(c, h, Appended(c, h, j, bodies[0]), es + [e], bodies[1..]);
      assert es + NextEntries(c, h, j, bodies) == es + [e] + NextEntries(c, h, Appended(c, h, j, bodies[0]), bodies[1..]);
    }
  }

  /** Opening any wholly valid file that ends at a line boundary, the empty one included, and
      appending any events gives a file that validates as the old entries followed by one entry
      per event. */
  lemma AppendsValidate(c: Codec<Entry>, h: Hash, file: string, bodies: seq<string>)
    requires Lawful(c) && Validate(c, h, file).firstBad.None? && EndsClean(file)
    ensures var j := Opened(c, h, file);
            Validate(c, h, AppendedAll(c, h, j, bodies).file)
            == Verdict(Validate(c, h, file).entries + NextEntries(c, h, j, bodies), None)
  {
    AppendAllHolds(c, h, Opened(c, h, file), Validate(c, h, file).entries, bodies);
  }

  /** The entries of a journal are numbered on from its number, each on the digest before it. */
  lemma {:induction false} NextEntriesFollow(c: Codec<Entry>, h: Hash, j: Journal, bodies: seq<string>, i: nat)
    requires i < |bodies|
    ensures var es := NextEntries(c, h, j, bodies);
            && es[i].number == j.number + i + 1
            && es[i].previous == (if i == 0 then j.lastDigest else es[i - 1].digest)
            && es[i].digest == h(es[i].number, bodies[i], es[i].previous)
    decreases |bodies|
  {
    if i > 0 {
      NextEntriesFollow(c, h, Appended(c, h, j, bodies[0]), bodies[1..], i - 1);
      if i > 1 {
        assert NextEntries(c, h, j, bodies)[i - 1] == NextEntries(c, h, Appended(c, h, j, bodies[0]), bodies[1..])[i - 2];
      }
    }
  }

  /** A journal started on an empty file holds one entry per event, numbered from 1 without a gap,
      the first on the empty digest and each other one on the digest of its predecessor. */
  lemma JournalIsNumbered(c: Codec<Entry>, h: Hash, bodies: seq<string>, i: nat)
    requires Lawful(c) && i < |bodies|
    ensures var v := Validate(c, h, AppendedAll(c, h, Opened(c, h, ""), bodies).file);
            var es := v.entries;
            && v.firstBad == None && |es| == |bodies|
            && es[i].number == i + 1 && es[i].body == bodies[i]
            && es[i].previous == (if i == 0 then "" else es[i - 1].digest)
            && es[i].digest == h(i + 1, bodies[i], es[i].previous)
  {
    hide Validate, Lawful, AppendedAll, NextEntries, Opened;
    JournalHolds(c, h, bodies);
    NothingWritten(c, h);
    NextEntriesFollow(c, h, Journal("", 0, ""), bodies, i);
  }

  lemma JournalHolds(c: Codec<Entry>, h: Hash, bodies: seq<string>)
    requires Lawful(c)
    ensures Validate(c, h, AppendedAll(c, h, Opened(c, h, ""), bodies).file)
         == Verdict(NextEntries(c, h, Journal("", 0, ""), bodies), None)
  {
    hide Validate, Lawful, AppendedAll, NextEntries, Opened;
    NothingWritten(c, h);
    AppendsValidate(c, h, "", bodies);
    var es := NextEntries(c, h, Journal("", 0, ""), bodies);
    assert [] + es == es;
  }

  lemma NothingWritten(c: Codec<Entry>, h: Hash)
    ensures Validate(c, h, "") == Verdict([], None) && EndsClean("") && Opened(c, h, "") == Journal("", 0, "")
  {
  }

  /** After a cut, appending continues the chain exactly when the cut fell on a line boundary:
      nothing repairs a torn line or a missing line break. */
  lemma ContinuesIff(c: Codec<Entry>, h: Hash, es: seq<Entry>, k: nat, body: string)
    requires Lawful(c) && Chained(h, es, "") && k <= |FileOf(c, es)|
    ensures var cut := FileOf(c, es)[..k];
            Validate(c, h, Appended(c, h, Opened(c, h, cut), body).file).firstBad.None? <==> EndsClean(cut)
  {
    hide FullyWritten, Remnant, Terminated, Lines, Validate;
    var cut := FileOf(c, es)[..k];
    var j := Opened(c, h, cut);
    var n, rest := Terminated(c, es, k), Remnant(c, es, k);
    CutValidates(c, h, es, k);
    CutSplits(c, es, k);
    CleanIff(c, es, k);
    ChainedPrefix(h, es, n, "");
    if rest == "" {
      assert cut == FileOf(c, es[..n]);
      AppendHolds(c, h, j, es[..n], body);
    } else {
      SpoiltLine(c, h, es[..n], es[n], rest, NextEntry(h, j, body));
      assert Appended(c, h, j, body).file == FileOf(c, es[..n]) + (rest + c.encode(NextEntry(h, j, body)) + "\n");
    }
  }

  /** An entry written behind a remnant shares its line, which then decodes to nothing. */
  lemma SpoiltLine(c: Codec<Entry>, h: Hash, es: seq<Entry>, torn: Entry, rest: string, e: Entry)
    requires Lawful(c) && Chained(h, es, "") && rest <= c.encode(torn) && rest != ""
    ensures Validate(c, h, FileOf(c, es) + (rest + c.encode(e) + "\n")).firstBad.Some?
  {
    var line := rest + c.encode(e);
    assert rest == c.encode(torn)[..|rest|];
    assert c.decode(line).None?;
    RestHasNoBreak(c.encode(torn), rest);
    LineBehindFile(c, es, line);
    assert FileOf(c, es) + (line + "\n") == FileOf(c, es) + (rest + c.encode(e) + "\n");
    GoodOfChain(c, h, es, [line], "");
    EncodedLength(c, es);
  }

  // ---------------------------------------------------------------------------
  // One digest, one history
  // ---------------------------------------------------------------------------

  lemma {:induction false} LastFollows(h: Hash, es: seq<Entry>, previous: string)
    requires es != [] && Chained(h, es, previous)
    ensures Follows(h, es[|es| - 1], LastDigest(es[..|es| - 1], previous))
    ensures Chained(h, es[..|es| - 1], previous)
  {
    ChainedPrefix(h, es, |es| - 1, previous);
    if |es| > 1 {
      LastFollows(h, es[1..], es[0].digest);
      assert es[1..][..|es| - 2] == es[1..|es| - 1];
      assert es[..|es| - 1][1..] == es[1..|es| - 1];
    }
  }

  /** Two chains with the same last digest are the same chain. */
  lemma {:induction false} DigestDeterminesChain(h: Hash, a: seq<Entry>, b: seq<Entry>)
    requires Sound(h) && Chained(h, a, "") && Chained(h, b, "")
    requires LastDigest(a, "") == LastDigest(b, "")
    ensures a == b
    decreases |a|
  {
    if a != [] {
      LastFollows(h, a, "");
    }
    if b != [] {
      LastFollows(h, b, "");
    }
    if a != [] && b != [] {
      DigestDeterminesChain(h, a[..|a| - 1], b[..|b| - 1]);
      assert a == a[..|a| - 1] + [a[|a| - 1]];
      assert b == b[..|b| - 1] + [b[|b| - 1]];
    }
  }

  lemma {:induction false} GoodIsChained(c: Codec<Entry>, h: Hash, lines: seq<string>, previous: string)
    ensures Chained(h, Good(c, h, lines, previous), previous)
  {
    if lines != [] {
      var e := c.decode(lines[0]);
      if e.Some? && Follows(h, e.value, previous) {
        GoodIsChained(c, h, lines[1..], e.value.digest);
        assert Good(c, h, lines, previous)[1..] == Good(c, h, lines[1..], e.value.digest);
      }
    }
  }

  /** Two files, whoever wrote them, that validate to the same last digest hold the same
      entries. */
  lemma SameDigestSameEntries(c: Codec<Entry>, h: Hash, f: string, g: string)
    requires Sound(h)
    requires LastDigest(Validate(c, h, f).entries, "") == LastDigest(Validate(c, h, g).entries, "")
    ensures Validate(c, h, f).entries == Validate(c, h, g).entries
  {
    GoodIsChained(c, h, Lines(f), "");
    GoodIsChained(c, h, Lines(g), "");
    DigestDeterminesChain(h, Validate(c, h, f).entries, Validate(c, h, g).entries);
  }
}
