/** Runs of the receipt store with any number of crashes: what is read, and what never changes. */
module ReceiptCrashes {
  import opened Wrappers
  import opened LineFiles
  import opened ReceiptStore
  import opened ReceiptRuns
  import opened ReceiptRecovery

  /** `Crash`: the machine stops when only the first `k` characters of the active file are on disk,
      and a new object recovers. */
  datatype Event = Done(operation: Operation) | Crash(k: nat)

  function Within(k: nat, s: string): nat {
    if k <= |s| then k else |s|
  }

  function Happened(c: Codec<Receipt>, d: Digest, limit: nat, s: Store, event: Event): Store {
    match event
    case Done(op) => Operated(c, d, limit, s, op)
    case Crash(k) => Recovered(c, Crashed(s, Within(k, s.active)))
  }

  /** From an empty directory. */
  function Lived(c: Codec<Receipt>, d: Digest, limit: nat, events: seq<Event>): Store {
    if events == [] then Store([], "", 0, 0)
    else Happened(c, d, limit, Lived(c, d, limit, events[..|events| - 1]), events[|events| - 1])
  }

  // ---------------------------------------------------------------------------
  // Chunks
  // ---------------------------------------------------------------------------

  lemma HappenedGrows(c: Codec<Receipt>, d: Digest, limit: nat, s: Store, event: Event)
    requires Numbered(s.chunks)
    ensures var z := Happened(c, d, limit, s, event); Numbered(z.chunks) && s.chunks <= z.chunks
  {
    hide Sealed, Kept;
    if event.Done? && !event.operation.Flush? {
      var w := if event.operation.Append? then Written(c, s, event.operation.record) else s;
      NothingToSeal(d, w);
      if w.count > 0 {
        SealAppends(d, w);
      }
    }
  }

  lemma {:induction false} LivedNumbered(c: Codec<Receipt>, d: Digest, limit: nat, events: seq<Event>)
    ensures Numbered(Lived(c, d, limit, events).chunks)
  {
    hide Happened;
    if events != [] {
      LivedNumbered(c, d, limit, events[..|events| - 1]);
      HappenedGrows(c, d, limit, Lived(c, d, limit, events[..|events| - 1]), events[|events| - 1]);
    }
  }

  /** Whatever happens, crashes and recoveries included, a chunk and its seal never change once
      the chunk is there. */
  lemma {:induction false} ChunksNeverChange(c: Codec<Receipt>, d: Digest, limit: nat, events: seq<Event>, n: nat)
    requires n < |events|
    ensures Lived(c, d, limit, events[..n + 1]).chunks <= Lived(c, d, limit, events).chunks
    ensures Lived(c, d, limit, events[..n]).chunks <= Lived(c, d, limit, events).chunks
  {
    hide Happened;
    var init := events[..|events| - 1];
    LivedNumbered(c, d, limit, init);
    HappenedGrows(c, d, limit, Lived(c, d, limit, init), events[|events| - 1]);
    if n + 1 == |events| {
      assert events[..n + 1] == events;
    } else {
      assert init[..n + 1] == events[..n + 1] && init[..n] == events[..n];
      ChunksNeverChange(c, d, limit, init, n);
    }
  }

  // ---------------------------------------------------------------------------
  // Records
  // ---------------------------------------------------------------------------

  /** The files hold the records of the ledger, and the count is right; seals and the failure
      counter are another matter. */
  ghost predicate Mirrors(c: Codec<Receipt>, s: Store, l: Ledger) {
    && Numbered(s.chunks) && |s.chunks| == |l.groups|
    && (forall i :: 0 <= i < |l.groups| ==> s.chunks[i].content == FileOf(c, l.groups[i].records))
    && s.active == FileOf(c, l.open) && s.count == |l.open|
  }

  /** What a crash leaves: the records of the active file that were fully written. */
  function Survived(c: Codec<Receipt>, l: Ledger, k: nat): Ledger {
    l.(open := l.open[..FullyWritten(c, l.open, Within(k, FileOf(c, l.open)))])
  }

  /** The cut does not fall exactly between a record and its line break. */
  predicate Tidy(c: Codec<Receipt>, l: Ledger, k: nat) {
    var cut := Within(k, FileOf(c, l.open));
    FullyWritten(c, l.open, cut) == Terminated(c, l.open, cut)
  }

  function Recorded(c: Codec<Receipt>, limit: nat, l: Ledger, event: Event): Ledger {
    match event
    case Done(op) => Noted(l, limit, op)
    case Crash(k) => Survived(c, l, k)
  }

  function Chronicle(c: Codec<Receipt>, limit: nat, events: seq<Event>): Ledger {
    if events == [] then NOTHING
    else Recorded(c, limit, Chronicle(c, limit, events[..|events| - 1]), events[|events| - 1])
  }

  predicate TidyRun(c: Codec<Receipt>, limit: nat, events: seq<Event>) {
    forall i :: 0 <= i < |events| && events[i].Crash? ==> Tidy(c, Chronicle(c, limit, events[..i]), events[i].k)
  }

  lemma ClosedMirrors(c: Codec<Receipt>, d: Digest, s: Store, l: Ledger, sealed: bool)
    requires Mirrors(c, s, l) && l.open != []
    ensures Mirrors(c, if sealed then Sealed(d, s) else Recovered(c, Renamed(s)), Closed(l, sealed))
  {
    hide FileOf;
    SealAppends(d, s);
    NothingOpen(c);
    var z := if sealed then Sealed(d, s) else Recovered(c, Renamed(s));
    assert z.chunks[..|l.groups|] == s.chunks;
    assert forall i :: 0 <= i < |l.groups| ==> z.chunks[i] == s.chunks[i];
  }

  lemma WrittenMirrors(c: Codec<Receipt>, s: Store, l: Ledger, r: Receipt)
    requires Mirrors(c, s, l)
    ensures Mirrors(c, Written(c, s, r), l.(open := l.open + [r]))
  {
    FileOfOneMore(c, l.open, r);
  }

  lemma OperatedMirrors(c: Codec<Receipt>, d: Digest, limit: nat, s: Store, l: Ledger, op: Operation)
    requires Mirrors(c, s, l)
    ensures Mirrors(c, Operated(c, d, limit, s, op), Noted(l, limit, op))
  {
    hide Mirrors, Sealed, Renamed, Recovered, Written;
    CountMirrors(c, s, l);
    match op
    case Append(r, timeout) =>
      var w, m := Written(c, s, r), l.(open := l.open + [r]);
      WrittenMirrors(c, s, l, r);
      CountMirrors(c, w, m);
      ClosedMirrors(c, d, w, m, true);
    case Flush =>
    case SealNow =>
      NothingToSeal(d, s);
      if l.open != [] {
        ClosedMirrors(c, d, s, l, true);
      }
    case SealTorn =>
      if l.open != [] {
        ClosedMirrors(c, d, s, l, false);
      }
  }

  lemma CountMirrors(c: Codec<Receipt>, s: Store, l: Ledger)
    requires Mirrors(c, s, l)
    ensures s.count == |l.open|
  {
  }

  /** Recovery looks at the active file only. */
  lemma CrashMirrors(c: Codec<Receipt>, d: Digest, s: Store, l: Ledger, k: nat)
    requires Lawful(c) && Mirrors(c, s, l) && Tidy(c, l, k)
    ensures Mirrors(c, Recovered(c, Crashed(s, Within(k, s.active))), Survived(c, l, k))
  {
    hide FullyWritten, Terminated, Remnant, Kept, FileOf;
    var cut := Within(k, s.active);
    RecoveredStore(c, d, l, cut);
    var full := FullyWritten(c, l.open, cut);
    assert FileOf(c, l.open[..full]) + "" == FileOf(c, l.open[..full]);
  }

  lemma {:induction false} LivedMirrors(c: Codec<Receipt>, d: Digest, limit: nat, events: seq<Event>)
    requires Lawful(c) && TidyRun(c, limit, events)
    ensures Mirrors(c, Lived(c, d, limit, events), Chronicle(c, limit, events))
  {
    hide Mirrors, Happened, Recorded, Tidy;
    if events == [] {
      NothingMirrors(c);
    } else {
      var init, event := events[..|events| - 1], events[|events| - 1];
      TidyPrefix(c, limit, events, |events| - 1);
      LivedMirrors(c, d, limit, init);
      HappenedMirrors(c, d, limit, Lived(c, d, limit, init), Chronicle(c, limit, init), event);
    }
  }

  lemma TidyPrefix(c: Codec<Receipt>, limit: nat, events: seq<Event>, n: nat)
    requires TidyRun(c, limit, events) && n <= |events|
    ensures TidyRun(c, limit, events[..n])
  {
    hide Tidy, Chronicle;
    forall i | 0 <= i < n && events[i].Crash?
      ensures Tidy(c, Chronicle(c, limit, events[..n][..i]), events[i].k)
    {
      assert events[..n][..i] == events[..i];
    }
  }

  lemma NothingMirrors(c: Codec<Receipt>)
    ensures Mirrors(c, Store([], "", 0, 0), NOTHING)
  {
  }

  lemma HappenedMirrors(c: Codec<Receipt>, d: Digest, limit: nat, s: Store, l: Ledger, event: Event)
    requires Lawful(c) && Mirrors(c, s, l) && (event.Crash? ==> Tidy(c, l, event.k))
    ensures Mirrors(c, Happened(c, d, limit, s, event), Recorded(c, limit, l, event))
  {
    hide Mirrors, Operated, Noted, Survived, Tidy;
    match event
    case Done(op) => OperatedMirrors(c, d, limit, s, l, op);
    case Crash(k) => CrashMirrors(c, d, s, l, k);
  }

  /** Reading looks at contents only. */
  lemma {:induction false} SameContentsRead(c: Codec<Receipt>, a: seq<Chunk>, b: seq<Chunk>, visit: seq<nat>)
    requires |a| == |b| && forall i :: 0 <= i < |a| ==> a[i].content == b[i].content
    requires forall i :: 0 <= i < |visit| ==> visit[i] < |a|
    ensures JoinAll(c, a, visit) == JoinAll(c, b, visit)
  {
    hide Parsed, Lines;
    if visit != [] {
      SameContentsRead(c, a, b, visit[1..]);
    }
  }

  lemma MirrorReads(c: Codec<Receipt>, d: Digest, s: Store, l: Ledger, visit: seq<nat>)
    requires Lawful(c) && Inked(c) && Mirrors(c, s, l)
    requires SortedByName(visit, |l.groups|) && |l.groups| < 1_000_000
    ensures Records(c, s, visit) == Some(LedgerRecords(l))
  {
    hide FileOf, Parsed, Lines, JoinAll;
    StoreReads(c, d, l, visit);
    SameContentsRead(c, s.chunks, ChunksOf(c, d, l.groups), visit);
  }

  /** After any tidy run, reading gives exactly the records of the chronicle. */
  lemma CrashesKeepReceipts(c: Codec<Receipt>, d: Digest, limit: nat, events: seq<Event>, visit: seq<nat>)
    requires Lawful(c) && Inked(c) && TidyRun(c, limit, events)
    requires var z := Lived(c, d, limit, events); SortedByName(visit, |z.chunks|) && |z.chunks| < 1_000_000
    ensures Records(c, Lived(c, d, limit, events), visit) == Some(LedgerRecords(Chronicle(c, limit, events)))
  {
    hide Lived, Chronicle, TidyRun, SortedByName, Records;
    LivedMirrors(c, d, limit, events);
    MirrorReads(c, d, Lived(c, d, limit, events), Chronicle(c, limit, events), visit);
  }

  /** Event by event: an append adds its record, a crash leaves a prefix that holds every chunk,
      and nothing else changes what is read. */
  lemma ChronicleStep(c: Codec<Receipt>, limit: nat, events: seq<Event>, n: nat)
    requires n < |events|
    ensures var l, z := Chronicle(c, limit, events[..n]), Chronicle(c, limit, events[..n + 1]);
            match events[n]
            case Done(op) => LedgerRecords(z) == LedgerRecords(l) + (if op.Append? then [op.record] else [])
            case Crash(_) => AllRecords(l.groups) <= LedgerRecords(z) <= LedgerRecords(l) && z.groups == l.groups
  {
    hide LedgerRecords, Noted, FullyWritten, FileOf;
    assert events[..n + 1][..n] == events[..n];
    var l := Chronicle(c, limit, events[..n]);
    match events[n]
    case Done(op) => NotedRecords(l, limit, op);
    case Crash(k) => SurvivedIsPrefix(l, FullyWritten(c, l.open, Within(k, FileOf(c, l.open))));
  }

  lemma SurvivedIsPrefix(l: Ledger, full: nat)
    requires full <= |l.open|
    ensures AllRecords(l.groups) <= LedgerRecords(l.(open := l.open[..full])) <= LedgerRecords(l)
  {
    assert LedgerRecords(l)[..|AllRecords(l.groups)| + full] == LedgerRecords(l.(open := l.open[..full]));
  }

  /** Why a run has to be tidy: after a cut between a record and its line break, the next record
      shares the line, and reading raises. */
  lemma UntidyCrashSpoils(c: Codec<Receipt>, d: Digest, l: Ledger, k: nat, r: Receipt, visit: seq<nat>)
    requires Lawful(c) && Inked(c) && !Tidy(c, l, k)
    requires forall i :: 0 <= i < |visit| ==> visit[i] < |l.groups|
    ensures var s := StoreOf(c, d, l);
            Records(c, Written(c, Recovered(c, Crashed(s, Within(k, s.active))), r), visit).None?
  {
    hide FullyWritten, Terminated, Remnant, Kept, FileOf, Lines, Parsed, JoinAll;
    var cut := Within(k, FileOf(c, l.open));
    RecoveredStore(c, d, l, cut);
    CutSplits(c, l.open, cut);
    var n := Terminated(c, l.open, cut);
    LineIsSpoilt(c, l.open[..n], l.open[n], r);
  }

  lemma LineIsSpoilt(c: Codec<Receipt>, kept: seq<Receipt>, last: Receipt, r: Receipt)
    requires Lawful(c) && Inked(c)
    ensures Parsed(c, Lines(FileOf(c, kept) + c.encode(last) + c.encode(r) + "\n")).None?
  {
    hide BlankLine, Lines, Parsed;
    var e := c.encode(last);
    var line := e + c.encode(r);
    assert e == e[..|e|];
    assert c.decode(line).None?;
    BlankPrefix(e, c.encode(r));
    assert FileOf(c, kept) + e + c.encode(r) + "\n" == FileOf(c, kept) + (line + "\n");
    LineBehindFile(c, kept, line);
    assert [line] + [] == [line];
    ParsedSpoilt(c, Encoded(c, kept), line, []);
  }
}
