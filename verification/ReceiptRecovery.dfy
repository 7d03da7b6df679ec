/** What a crash leaves of the receipts, what can be continued, and the object itself. */
module ReceiptRecovery {
  import opened Sequences
  import opened Wrappers
  import opened LineFiles
  import opened ReceiptStore
  import Texts
  import opened ReceiptRuns

  /** Power is lost when only the first `k` characters of the active file are on disk. */
  function Crashed(s: Store, k: nat): Store
    requires k <= |s.active|
  {
    s.(active := s.active[..k])
  }

  /** What recovery keeps of a cut file: the terminated lines, and a last one that is whole but
      for its line break. */
  lemma {:induction false} KeptOfFile(c: Codec<Receipt>, rs: seq<Receipt>, rest: string)
    requires Lawful(c) && '\n' !in rest
    ensures Kept(c, FileOf(c, rs) + rest) ==
              if c.decode(rest).Some? then (FileOf(c, rs) + rest, |rs| + 1) else (FileOf(c, rs), |rs|)
  {
    hide FirstBreak, Lawful;
    EmptyIsNoRecord(c);
    if rs == [] {
      assert FileOf(c, rs) + rest == rest;
      NoBreak(rest);
      assert rest[..|rest|] == rest;
    } else {
      var e := c.encode(rs[0]);
      var after := FileOf(c, rs[1..]) + rest;
      DecodesOwn(c, rs[0]);
      assert FileOf(c, rs) + rest == e + "\n" + after;
      KeptCons(c, rs[0], after);
      KeptOfFile(c, rs[1..], rest);
      ConcatAssociates(e + "\n", FileOf(c, rs[1..]), rest);
    }
  }

  /** A terminated record is kept, with whatever is kept of the rest. */
  lemma KeptCons(c: Codec<Receipt>, r: Receipt, after: string)
    requires Lawful(c)
    ensures Kept(c, c.encode(r) + "\n" + after) == (c.encode(r) + "\n" + Kept(c, after).0, Kept(c, after).1 + 1)
  {
    hide Lawful, FirstBreak;
    var e := c.encode(r);
    var raw := e + "\n" + after;
    DecodesOwn(c, r);
    BreakAt(e, after);
    assert raw[..|e|] == e && raw[|e| + 1..] == after && raw[..|e| + 1] == e + "\n";
  }

  lemma EmptyIsNoRecord(c: Codec<Receipt>)
    requires Lawful(c)
    ensures c.decode("").None?
  {
    var r := Receipt("", false);
    assert c.encode(r) != "" && c.encode(r)[..0] == "";
  }

  /** The remnant that recovery lets stand. */
  function KeptRemnant(c: Codec<Receipt>, rs: seq<Receipt>, k: nat): string {
    if FullyWritten(c, rs, k) > Terminated(c, rs, k) then Remnant(c, rs, k) else ""
  }

  /** After a crash at any character, recovery keeps the records fully written. */
  lemma RecoveredStore(c: Codec<Receipt>, d: Digest, l: Ledger, k: nat)
    requires Lawful(c) && k <= |FileOf(c, l.open)|
    ensures var s := StoreOf(c, d, l);
            var n, full := Terminated(c, l.open, k), FullyWritten(c, l.open, k);
            Recovered(c, Crashed(s, k)) == Store(s.chunks, FileOf(c, l.open[..n]) + KeptRemnant(c, l.open, k), full, 0)
  {
    hide FullyWritten, Terminated, Remnant, Kept;
    var n, rest := Terminated(c, l.open, k), Remnant(c, l.open, k);
    CutSplits(c, l.open, k);
    CutLines(c, l.open, k);
    if n < |l.open| {
      RestHasNoBreak(c.encode(l.open[n]), rest);
    }
    KeptOfFile(c, l.open[..n], rest);
    EmptyIsNoRecord(c);
    assert FileOf(c, l.open[..n]) + "" == FileOf(c, l.open[..n]);
  }

  lemma ReadsRecovered(c: Codec<Receipt>, rs: seq<Receipt>, n: nat, rest: string)
    requires Lawful(c) && Inked(c) && n <= |rs|
    requires rest == "" || (n < |rs| && rest == c.encode(rs[n]))
    ensures Parsed(c, Lines(FileOf(c, rs[..n]) + rest)) == Some(rs[..if rest == "" then n else n + 1])
  {
    hide Lines, Parsed, FileOf, BlankLine;
    LinesOfFile(c, rs[..n], rest);
    if rest == "" {
      assert Encoded(c, rs[..n]) + [] == Encoded(c, rs[..n]);
      ParsedEncoded(c, rs[..n]);
    } else {
      assert rs[..n + 1] == rs[..n] + [rs[n]];
      EncodedConcat(c, rs[..n], [rs[n]]);
      assert [rs[n]][1..] == [];
      assert Encoded(c, [rs[n]]) == [rest];
      ParsedEncoded(c, rs[..n + 1]);
    }
  }

  /** Reading after crash and recovery gives everything in the chunks and the records of the
      active file that were fully written: a prefix of what was appended. */
  lemma RecoveryKeepsPrefix(c: Codec<Receipt>, d: Digest, l: Ledger, k: nat, visit: seq<nat>)
    requires Lawful(c) && Inked(c) && k <= |FileOf(c, l.open)|
    requires SortedByName(visit, |l.groups|) && |l.groups| < 1_000_000
    ensures var full := FullyWritten(c, l.open, k);
            && Records(c, Recovered(c, Crashed(StoreOf(c, d, l), k)), visit) == Some(AllRecords(l.groups) + l.open[..full])
            && AllRecords(l.groups) + l.open[..full] <= LedgerRecords(l)
  {
    hide FullyWritten, Terminated, Remnant, Kept, Parsed, FileOf, Lines, SortedByName;
    var n := Terminated(c, l.open, k);
    RecoveredStore(c, d, l, k);
    CutSplits(c, l.open, k);
    if n < |l.open| {
      assert c.encode(l.open[n]) != "";
    }
    ReadsRecovered(c, l.open, n, KeptRemnant(c, l.open, k));
    SortedIsUpwards(visit, |l.groups|);
    UpwardsBelow(0, |l.groups|);
    JoinReads(c, d, l.groups, 0);
    NothingGrouped(l.groups);
    var rs := JoinAll(c, ChunksOf(c, d, l.groups), visit).value;
    assert [] + rs == rs;
  }

  /** Recovery is as good as never having crashed after the kept records exactly when none of
      them had failed and the last one has its line break: the failure counter is not restored,
      and a missing break is not repaired. */
  lemma ContinuesIff(c: Codec<Receipt>, d: Digest, l: Ledger, k: nat)
    requires Lawful(c) && k <= |FileOf(c, l.open)|
    ensures var full := FullyWritten(c, l.open, k);
            Recovered(c, Crashed(StoreOf(c, d, l), k)) == StoreOf(c, d, l.(open := l.open[..full]))
            <==> Failures(l.open[..full]) == 0 && full == Terminated(c, l.open, k)
  {
    hide FullyWritten, Terminated, Remnant, Kept, Failures;
    var n, full := Terminated(c, l.open, k), FullyWritten(c, l.open, k);
    RecoveredStore(c, d, l, k);
    CutSplits(c, l.open, k);
    if full == n {
      assert FileOf(c, l.open[..n]) + "" == FileOf(c, l.open[..n]);
    } else {
      assert l.open[..full] == l.open[..n] + [l.open[n]];
      FileOfOneMore(c, l.open[..n], l.open[n]);
      assert |FileOf(c, l.open[..full])| == |FileOf(c, l.open[..n])| + |Remnant(c, l.open, k)| + 1;
    }
  }

  // ---------------------------------------------------------------------------
  // The first seal after recovery
  // ---------------------------------------------------------------------------

  function WrittenAll(c: Codec<Receipt>, s: Store, rs: seq<Receipt>): Store {
    if rs == [] then s else Written(c, WrittenAll(c, s, rs[..|rs| - 1]), rs[|rs| - 1])
  }

  lemma {:induction false} WrittenAllAdds(c: Codec<Receipt>, s: Store, rs: seq<Receipt>)
    ensures WrittenAll(c, s, rs) == Store(s.chunks, s.active + FileOf(c, rs), s.count + |rs|, s.failed + Failures(rs))
  {
    hide FileOf;
    if rs == [] {
      NothingOpen(c);
      assert s.active + "" == s.active;
    } else {
      var init, r := rs[..|rs| - 1], rs[|rs| - 1];
      WrittenAllAdds(c, s, init);
      FileOfOneMore(c, init, r);
      assert init + [r] == rs;
      assert s.active + FileOf(c, rs) == s.active + FileOf(c, init) + c.encode(r) + "\n";
    }
  }

  ghost predicate NeverTorn(ops: seq<Operation>) {
    forall i :: 0 <= i < |ops| ==> !ops[i].SealTorn?
  }

  /** Until the first seal a run only adds its records to the active file. */
  ghost predicate Unsealed(c: Codec<Receipt>, d: Digest, limit: nat, s: Store, ops: seq<Operation>) {
    Ran(c, d, limit, s, ops) == WrittenAll(c, s, Appends(ops))
  }

  /** An operation either writes at most its record or seals what was written. */
  lemma SealsOrWrites(c: Codec<Receipt>, d: Digest, limit: nat, s: Store, ops: seq<Operation>)
    requires ops != [] && !ops[|ops| - 1].SealTorn? && Unsealed(c, d, limit, s, ops[..|ops| - 1])
    ensures var w, z := WrittenAll(c, s, Appends(ops)), Ran(c, d, limit, s, ops); z == w || (z == Sealed(d, w) && w.count > 0)
  {
    hide Sealed, Written;
    var init, op := ops[..|ops| - 1], ops[|ops| - 1];
    if op.Append? {
      assert (Appends(init) + [op.record])[..|Appends(init)|] == Appends(init);
      WrittenCounts(c, WrittenAll(c, s, Appends(init)), op.record);
    } else {
      assert Appends(init) + [] == Appends(init);
      NothingToSeal(d, WrittenAll(c, s, Appends(ops)));
    }
  }

  lemma WrittenCounts(c: Codec<Receipt>, s: Store, r: Receipt)
    ensures Written(c, s, r).count > 0
  {
  }

  lemma NothingToSeal(d: Digest, s: Store)
    ensures s.count == 0 ==> Sealed(d, s) == s
  {
  }

  lemma OperationGrows(c: Codec<Receipt>, d: Digest, limit: nat, s: Store, op: Operation)
    requires Numbered(s.chunks) && !op.SealTorn?
    ensures var z := Operated(c, d, limit, s, op); Numbered(z.chunks) && |s.chunks| <= |z.chunks|
  {
    hide Sealed;
    var w := if op.Append? then Written(c, s, op.record) else s;
    NothingToSeal(d, w);
    if w.count > 0 {
      SealAppends(d, w);
    }
  }

  lemma NothingRan(c: Codec<Receipt>, d: Digest, limit: nat, s: Store)
    ensures Unsealed(c, d, limit, s, [])
  {
  }

  /** While a run makes no chunk it only adds its records to the active file. */
  lemma {:induction false} UntouchedIsUnsealed(c: Codec<Receipt>, d: Digest, limit: nat, s: Store, ops: seq<Operation>)
    requires Numbered(s.chunks) && NeverTorn(ops)
    ensures var z := Ran(c, d, limit, s, ops);
            Numbered(z.chunks) && ((z.chunks == s.chunks && Unsealed(c, d, limit, s, ops)) || |z.chunks| > |s.chunks|)
  {
    hide Operated, Sealed, Numbered, WrittenAll, Appends;
    if ops == [] {
      NothingRan(c, d, limit, s);
    } else {
      var init, op := ops[..|ops| - 1], ops[|ops| - 1];
      UntouchedIsUnsealed(c, d, limit, s, init);
      OperationGrows(c, d, limit, Ran(c, d, limit, s, init), op);
      if Unsealed(c, d, limit, s, init) {
        var w := WrittenAll(c, s, Appends(ops));
        SealsOrWrites(c, d, limit, s, ops);
        WrittenAllAdds(c, s, Appends(ops));
        if w.count > 0 {
          SealAppends(d, w);
        }
      }
    }
  }

  /** The first chunk that any run after the recovery seals, by an append or directly, passes its
      check exactly when none of the recovered records had failed and, unless nothing was appended,
      the last of them had its line break. */
  lemma FirstSealIff(c: Codec<Receipt>, d: Digest, limit: nat, l: Ledger, k: nat, ops: seq<Operation>)
    requires Lawful(c) && Inked(c) && k <= |FileOf(c, l.open)|
    requires ops != [] && NeverTorn(ops)
    requires var s := Recovered(c, Crashed(StoreOf(c, d, l), k));
             Ran(c, d, limit, s, ops[..|ops| - 1]).chunks == s.chunks != Ran(c, d, limit, s, ops).chunks
    ensures var full := FullyWritten(c, l.open, k);
            var z := Ran(c, d, limit, Recovered(c, Crashed(StoreOf(c, d, l), k)), ops);
            && |z.chunks| == |l.groups| + 1
            && (CheckSeal(c, d, z.chunks[|l.groups|]).Fine? <==>
                Failures(l.open[..full]) == 0 && (Appends(ops) == [] || full == Terminated(c, l.open, k)))
  {
    hide FullyWritten, Terminated, Remnant, Kept, Failures, CheckSeal, FileOf, Lines, Parsed, Sealed, Appends, WrittenAll, Ran;
    var s := Recovered(c, Crashed(StoreOf(c, d, l), k));
    var rs := Appends(ops);
    var w := WrittenAll(c, s, rs);
    RecoveredStore(c, d, l, k);
    UntouchedIsUnsealed(c, d, limit, s, ops[..|ops| - 1]);
    SealsOrWrites(c, d, limit, s, ops);
    WrittenAllAdds(c, s, rs);
    SealAppends(d, w);
    var chunk := Sealed(d, w).chunks[|l.groups|];
    SealedFileIff(c, d, l.open, k, rs, chunk);
  }

  /** The same of the chunk on its own. */
  lemma SealedFileIff(c: Codec<Receipt>, d: Digest, open: seq<Receipt>, k: nat, rs: seq<Receipt>, chunk: Chunk)
    requires Lawful(c) && Inked(c) && k <= |FileOf(c, open)|
    requires var n, full := Terminated(c, open, k), FullyWritten(c, open, k);
             && chunk.content == FileOf(c, open[..n]) + KeptRemnant(c, open, k) + FileOf(c, rs)
             && chunk.seal == Some(Seal(d(chunk.content), full + |rs|, Failures(rs)))
    ensures var full := FullyWritten(c, open, k);
            CheckSeal(c, d, chunk).Fine? <==>
              Failures(open[..full]) == 0 && (rs == [] || full == Terminated(c, open, k))
  {
    hide FullyWritten, Terminated, Remnant, Failures, CheckSeal, FileOf, Lines, Parsed;
    var n, full := Terminated(c, open, k), FullyWritten(c, open, k);
    CutSplits(c, open, k);
    NothingOpen(c);
    if full == n {
      assert FileOf(c, open[..n]) + "" == FileOf(c, open[..n]);
      FileOfConcat(c, open[..n], rs);
      ParsedFile(c, open[..n] + rs);
      ReadChecks(c, d, open[..n], rs, chunk);
    } else if rs == [] {
      ReadsRecovered(c, open, n, Remnant(c, open, k));
      assert chunk.content == FileOf(c, open[..n]) + Remnant(c, open, k);
      assert open[..full] + rs == open[..full];
      assert c.encode(open[n]) != "";
      ReadChecks(c, d, open[..full], rs, chunk);
    } else {
      SpoiltChunkRaises(c, d, open[..n], open[n], rs, chunk);
    }
  }

  lemma {:induction false} FailuresAdd(a: seq<Receipt>, b: seq<Receipt>)
    ensures Failures(a + b) == Failures(a) + Failures(b)
  {
    if b == [] {
      assert a + b == a;
    } else {
      assert (a + b)[..|a + b| - 1] == a + b[..|b| - 1];
      FailuresAdd(a, b[..|b| - 1]);
    }
  }

  /** A chunk that reads as `kept` and `rs` but counts only the failures of `rs`. */
  lemma ReadChecks(c: Codec<Receipt>, d: Digest, kept: seq<Receipt>, rs: seq<Receipt>, chunk: Chunk)
    requires Parsed(c, Lines(chunk.content)) == Some(kept + rs)
    requires chunk.seal == Some(Seal(d(chunk.content), |kept| + |rs|, Failures(rs)))
    ensures CheckSeal(c, d, chunk).Fine? <==> Failures(kept) == 0
  {
    hide Parsed, Lines, Failures;
    FailuresAdd(kept, rs);
  }

  /** A record written behind an unterminated one shares its line, and reading raises. */
  lemma SpoiltChunkRaises(c: Codec<Receipt>, d: Digest, kept: seq<Receipt>, last: Receipt, rs: seq<Receipt>, chunk: Chunk)
    requires Lawful(c) && Inked(c) && rs != []
    requires chunk.content == FileOf(c, kept) + c.encode(last) + FileOf(c, rs)
    requires chunk.seal.Some? && chunk.seal.value.digest == d(chunk.content)
    ensures CheckSeal(c, d, chunk).Raises?
  {
    hide BlankLine, Lines, Parsed;
    var e := c.encode(last);
    var line, after := e + c.encode(rs[0]), FileOf(c, rs[1..]);
    assert e == e[..|e|];
    assert c.decode(line).None?;
    BlankPrefix(e, c.encode(rs[0]));
    assert chunk.content == FileOf(c, kept) + (line + "\n" + after);
    LinesBehindFile(c, kept, line + "\n" + after);
    LinesCons(line, after);
    ParsedSpoilt(c, Encoded(c, kept), line, Lines(after));
  }

  lemma BlankPrefix(a: string, b: string)
    requires !BlankLine(a)
    ensures !BlankLine(a + b)
  {
    hide Texts.Blank;
    var i :| 0 <= i < |a| && !Texts.Blank(a[i]);
    assert (a + b)[i] == a[i];
  }

  lemma {:induction false} ParsedSpoilt(c: Codec<Receipt>, lines: seq<string>, line: string, more: seq<string>)
    requires !BlankLine(line) && c.decode(line).None?
    ensures Parsed(c, lines + ([line] + more)).None?
  {
    hide BlankLine;
    var all := lines + ([line] + more);
    if lines == [] {
      assert all == [line] + more && all[0] == line;
    } else {
      assert all[0] == lines[0] && all[1..] == lines[1..] + ([line] + more);
      ParsedSpoilt(c, lines[1..], line, more);
    }
  }

  // ---------------------------------------------------------------------------
  // The object
  // ---------------------------------------------------------------------------

  class ReceiptChunks {
    const codec: Codec<Receipt>
    const digest: Digest
    const recordLimit: nat
    var chunks: seq<Chunk>
    var active: string
    var count: nat
    var failed: nat

    function View(): Store
      reads this
    {
      Store(chunks, active, count, failed)
    }

    /** The counters start at zero whatever the directory holds. */
    constructor (codec: Codec<Receipt>, digest: Digest, recordLimit: nat, chunks: seq<Chunk>, active: string)
      ensures this.codec == codec && this.digest == digest && this.recordLimit == recordLimit
      ensures View() == Store(chunks, active, 0, 0)
    {
      this.codec, this.digest, this.recordLimit := codec, digest, recordLimit;
      this.chunks, this.active, count, failed := chunks, active, 0, 0;
    }

    method NextIndex() returns (index: nat)
      ensures index == HighestIndex(chunks) + 1
    {
      var highest := 0;
      for i := 0 to |chunks|
        invariant highest == HighestIndex(chunks[..i])
      {
        assert chunks[..i + 1][..i] == chunks[..i];
        if chunks[i].index > highest {
          highest := chunks[i].index;
        }
      }
      assert chunks[..|chunks|] == chunks;
      index := highest + 1;
    }

    method Append(r: Receipt, timeout: bool)
      modifies this
      ensures View() == AppendedReceipt(codec, digest, recordLimit, old(View()), r, timeout)
    {
      active := active + codec.encode(r) + "\n";
      count := count + 1;
      if r.failed {
        failed := failed + 1;
      }
      if count >= recordLimit || timeout {
        SealChunk();
      }
    }

    method SealChunk()
      modifies this
      ensures View() == Sealed(digest, old(View()))
    {
      if count == 0 {
        return;
      }
      var index := NextIndex();
      var content := active;
      chunks, active := Replaced(chunks, index, content), "";
      chunks := SealWritten(chunks, index, Seal(digest(content), count, failed));
      count, failed := 0, 0;
    }

    /** Only the counter of records is restored. */
    method RecoverActive() returns (good: nat)
      modifies this
      ensures View() == Recovered(codec, old(View())).(failed := old(failed)) && good == count
    {
      var offset;
      offset, good := ScanLines(codec, active);
      active := active[..offset];
      count := good;
    }
  }

  function LineEnd(raw: string, offset: nat): (next: nat)
    requires offset < |raw|
    ensures offset < next <= |raw|
  {
    var n := FirstBreak(raw[offset..]);
    if n == |raw| - offset then |raw| else offset + n + 1
  }

  function LineAt(raw: string, offset: nat): string
    requires offset < |raw|
  {
    raw[offset..][..FirstBreak(raw[offset..])]
  }

  lemma TailOf(raw: string, offset: nat, n: nat)
    requires offset + n <= |raw|
    ensures raw[offset..][n..] == raw[offset + n..] && raw[offset..][..n] == raw[offset..offset + n]
  {
  }

  lemma KeptStep(c: Codec<Receipt>, raw: string, offset: nat)
    requires offset < |raw|
    ensures var next, k := LineEnd(raw, offset), Kept(c, raw[offset..]);
            if c.decode(LineAt(raw, offset)).None? then k == ("", 0)
            else k == (raw[offset..next] + Kept(c, raw[next..]).0, Kept(c, raw[next..]).1 + 1)
  {
    hide FirstBreak;
    var tail, next := raw[offset..], LineEnd(raw, offset);
    var n := FirstBreak(tail);
    if n < |tail| {
      TailOf(raw, offset, n + 1);
    } else {
      assert raw[next..] == "" && raw[offset..next] == tail;
      NothingKept(c);
      assert tail + "" == tail;
    }
  }

  /** How much of a file is whole lines of records. */
  method ScanLines(c: Codec<Receipt>, raw: string) returns (offset: nat, good: nat)
    ensures offset <= |raw| && Kept(c, raw) == (raw[..offset], good)
  {
    hide Kept, LineAt, LineEnd;
    offset, good := 0, 0;
    assert raw[0..] == raw && raw[..0] + Kept(c, raw).0 == Kept(c, raw).0;
    while offset < |raw|
      invariant offset <= |raw|
      invariant Kept(c, raw) == (raw[..offset] + Kept(c, raw[offset..]).0, good + Kept(c, raw[offset..]).1)
    {
      KeptStep(c, raw, offset);
      if c.decode(LineAt(raw, offset)).None? {
        assert raw[..offset] + "" == raw[..offset];
        return;
      }
      var next := LineEnd(raw, offset);
      ConcatAssociates(raw[..offset], raw[offset..next], Kept(c, raw[next..]).0);
      assert raw[..offset] + raw[offset..next] == raw[..next];
      offset := next;
      good := good + 1;
    }
    NothingKept(c);
    assert raw[offset..] == "" && raw[..offset] + "" == raw[..offset];
  }

  lemma NothingKept(c: Codec<Receipt>)
    ensures Kept(c, "") == ("", 0)
  {
  }
}
