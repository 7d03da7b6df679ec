/** The receipt store refines a ledger of groups, over every run and through crashes. */
module ReceiptRuns {
  import opened Decimals
  import opened Wrappers
  import opened LineFiles
  import opened TextOrder
  import opened ReceiptStore

  // ---------------------------------------------------------------------------
  // One operation
  // ---------------------------------------------------------------------------

  ghost predicate Numbered(chunks: seq<Chunk>) {
    forall i :: 0 <= i < |chunks| ==> chunks[i].index == i + 1
  }

  lemma {:induction false} HighestNumbered(chunks: seq<Chunk>)
    requires Numbered(chunks)
    ensures HighestIndex(chunks) == |chunks|
  {
    if chunks != [] {
      HighestNumbered(chunks[..|chunks| - 1]);
    }
  }

  /** A chunk with a new index joins the others; none is overwritten. */
  lemma {:induction false} ReplacedAppends(chunks: seq<Chunk>, index: nat, content: string)
    requires forall i :: 0 <= i < |chunks| ==> chunks[i].index != index
    ensures Replaced(chunks, index, content) == chunks + [Chunk(index, content, None)]
  {
    if chunks != [] {
      ReplacedAppends(chunks[1..], index, content);
    }
  }

  lemma {:induction false} SealWrittenLast(chunks: seq<Chunk>, last: Chunk, seal: Seal)
    requires forall i :: 0 <= i < |chunks| ==> chunks[i].index != last.index
    ensures SealWritten(chunks + [last], last.index, seal) == chunks + [last.(seal := Some(seal))]
  {
    if chunks == [] {
      assert chunks + [last] == [last];
    } else {
      assert (chunks + [last])[0] == chunks[0] && (chunks + [last])[1..] == chunks[1..] + [last];
      SealWrittenLast(chunks[1..], last, seal);
    }
  }

  lemma SealAppends(d: Digest, s: Store)
    requires Numbered(s.chunks) && s.count > 0
    ensures Sealed(d, s) ==
              Store(s.chunks + [Chunk(|s.chunks| + 1, s.active, Some(Seal(d(s.active), s.count, s.failed)))], "", 0, 0)
    ensures Renamed(s).chunks == s.chunks + [Chunk(|s.chunks| + 1, s.active, None)]
  {
    HighestNumbered(s.chunks);
    ReplacedAppends(s.chunks, |s.chunks| + 1, s.active);
    SealWrittenLast(s.chunks, Chunk(|s.chunks| + 1, s.active, None), Seal(d(s.active), s.count, s.failed));
  }

  lemma ChunksOfMore(c: Codec<Receipt>, d: Digest, groups: seq<Group>, g: Group)
    ensures ChunksOf(c, d, groups + [g]) == ChunksOf(c, d, groups) + [ChunkOf(c, d, g, |groups| + 1)]
  {
  }

  lemma ClosesGroup(c: Codec<Receipt>, d: Digest, l: Ledger)
    requires l.open != []
    ensures var s := StoreOf(c, d, l);
            && Renamed(s).chunks == StoreOf(c, d, Closed(l, false)).chunks
            && Sealed(d, s) == StoreOf(c, d, Closed(l, true))
  {
    hide ChunksOf, FileOf, Failures;
    var s := StoreOf(c, d, l);
    SealAppends(d, s);
    ChunksOfMore(c, d, l.groups, Group(l.open, false));
    ChunksOfMore(c, d, l.groups, Group(l.open, true));
    NothingOpen(c);
  }

  lemma NothingOpen(c: Codec<Receipt>)
    ensures FileOf(c, []) == "" && Failures([]) == 0
  {
  }

  lemma WritesRecord(c: Codec<Receipt>, d: Digest, l: Ledger, r: Receipt)
    ensures Written(c, StoreOf(c, d, l), r) == StoreOf(c, d, l.(open := l.open + [r]))
  {
    FileOfOneMore(c, l.open, r);
    assert (l.open + [r])[..|l.open|] == l.open;
  }

  lemma AppendRefines(c: Codec<Receipt>, d: Digest, limit: nat, l: Ledger, r: Receipt, timeout: bool)
    ensures AppendedReceipt(c, d, limit, StoreOf(c, d, l), r, timeout) == StoreOf(c, d, Entered(l, limit, r, timeout))
  {
    hide StoreOf, Sealed;
    var w := l.(open := l.open + [r]);
    WritesRecord(c, d, l, r);
    assert StoreOf(c, d, w).count == |w.open| by { CountOf(c, d, w); }
    ClosesGroup(c, d, w);
  }

  lemma CountOf(c: Codec<Receipt>, d: Digest, l: Ledger)
    ensures StoreOf(c, d, l).count == |l.open|
  {
  }

  // ---------------------------------------------------------------------------
  // Runs
  // ---------------------------------------------------------------------------

  /** `SealTorn`: the machine stops between the rename and the seal, and a new object recovers. */
  datatype Operation = Append(record: Receipt, timeout: bool) | Flush | SealNow | SealTorn

  function Operated(c: Codec<Receipt>, d: Digest, limit: nat, s: Store, op: Operation): Store {
    match op
    case Append(r, timeout) => AppendedReceipt(c, d, limit, s, r, timeout)
    case Flush => s
    case SealNow => Sealed(d, s)
    case SealTorn => if s.count == 0 then s else Recovered(c, Renamed(s))
  }

  function Noted(l: Ledger, limit: nat, op: Operation): Ledger {
    match op
    case Append(r, timeout) => Entered(l, limit, r, timeout)
    case Flush => l
    case SealNow => Closed(l, true)
    case SealTorn => Closed(l, false)
  }

  function Ran(c: Codec<Receipt>, d: Digest, limit: nat, s: Store, ops: seq<Operation>): Store {
    if ops == [] then s else Operated(c, d, limit, Ran(c, d, limit, s, ops[..|ops| - 1]), ops[|ops| - 1])
  }

  function NotedAll(l: Ledger, limit: nat, ops: seq<Operation>): Ledger {
    if ops == [] then l else Noted(NotedAll(l, limit, ops[..|ops| - 1]), limit, ops[|ops| - 1])
  }

  function Appends(ops: seq<Operation>): seq<Receipt> {
    if ops == [] then []
    else Appends(ops[..|ops| - 1]) + (if ops[|ops| - 1].Append? then [ops[|ops| - 1].record] else [])
  }

  lemma OperationRefines(c: Codec<Receipt>, d: Digest, limit: nat, l: Ledger, op: Operation)
    ensures Operated(c, d, limit, StoreOf(c, d, l), op) == StoreOf(c, d, Noted(l, limit, op))
  {
    hide AppendedReceipt, Entered;
    CountOf(c, d, l);
    match op
    case Append(r, timeout) => AppendRefines(c, d, limit, l, r, timeout);
    case Flush =>
    case SealNow =>
      if l.open != [] {
        ClosesGroup(c, d, l);
      }
    case SealTorn =>
      if l.open != [] {
        ClosesGroup(c, d, l);
        NothingOpen(c);
      }
  }

  /** The store refines the ledger over every run. */
  lemma {:induction false} RunRefines(c: Codec<Receipt>, d: Digest, limit: nat, l: Ledger, ops: seq<Operation>)
    ensures Ran(c, d, limit, StoreOf(c, d, l), ops) == StoreOf(c, d, NotedAll(l, limit, ops))
  {
    hide StoreOf, Operated, Noted;
    if ops != [] {
      RunRefines(c, d, limit, l, ops[..|ops| - 1]);
      OperationRefines(c, d, limit, NotedAll(l, limit, ops[..|ops| - 1]), ops[|ops| - 1]);
    }
  }

  lemma ClosedRecords(l: Ledger, sealed: bool)
    ensures LedgerRecords(Closed(l, sealed)) == LedgerRecords(l)
  {
    if l.open != [] {
      assert (l.groups + [Group(l.open, sealed)])[..|l.groups|] == l.groups;
    }
  }

  ghost predicate AllSealed(groups: seq<Group>) {
    forall g :: g in groups ==> g.sealed
  }

  /** An operation closes at most one group, and leaves it unsealed only when its seal is torn. */
  lemma NotedGroups(l: Ledger, limit: nat, op: Operation)
    ensures var z := Noted(l, limit, op);
            && |l.groups| <= |z.groups| <= |l.groups| + 1
            && (|z.groups| > |l.groups| ==> z.groups[|l.groups|].sealed == !op.SealTorn?)
  {
  }

  lemma NotedRecords(m: Ledger, limit: nat, op: Operation)
    ensures var z := Noted(m, limit, op);
            && LedgerRecords(z) == LedgerRecords(m) + (if op.Append? then [op.record] else [])
            && m.groups <= z.groups
            && (!op.SealTorn? && AllSealed(m.groups) ==> AllSealed(z.groups))
  {
    match op
    case Append(r, timeout) =>
      var w := m.(open := m.open + [r]);
      assert LedgerRecords(w) == LedgerRecords(m) + [r];
      ClosedRecords(w, true);
    case Flush => assert LedgerRecords(m) + [] == LedgerRecords(m);
    case SealNow =>
      assert LedgerRecords(m) + [] == LedgerRecords(m);
      ClosedRecords(m, true);
    case SealTorn =>
      assert LedgerRecords(m) + [] == LedgerRecords(m);
      ClosedRecords(m, false);
  }

  /** The ledger holds what was appended, in order, and its groups only grow. */
  lemma {:induction false} LedgerHoldsAppends(l: Ledger, limit: nat, ops: seq<Operation>)
    ensures LedgerRecords(NotedAll(l, limit, ops)) == LedgerRecords(l) + Appends(ops)
    ensures l.groups <= NotedAll(l, limit, ops).groups
    ensures (forall i :: 0 <= i < |ops| ==> !ops[i].SealTorn?) && AllSealed(l.groups) ==> AllSealed(NotedAll(l, limit, ops).groups)
  {
    hide Noted, LedgerRecords, AllSealed;
    if ops == [] {
      assert LedgerRecords(l) + [] == LedgerRecords(l);
    } else {
      var init, op := ops[..|ops| - 1], ops[|ops| - 1];
      LedgerHoldsAppends(l, limit, init);
      NotedRecords(NotedAll(l, limit, init), limit, op);
      var last := if op.Append? then [op.record] else [];
      assert (LedgerRecords(l) + Appends(init)) + last == LedgerRecords(l) + (Appends(init) + last);
    }
  }

  // ---------------------------------------------------------------------------
  // Reading back
  // ---------------------------------------------------------------------------

  lemma {:induction false} ParsedEncoded(c: Codec<Receipt>, rs: seq<Receipt>)
    requires Lawful(c) && Inked(c)
    ensures Parsed(c, Encoded(c, rs)) == Some(rs)
  {
    hide BlankLine;
    if rs != [] {
      var lines := Encoded(c, rs);
      assert lines[0] == c.encode(rs[0]) && lines[1..] == Encoded(c, rs[1..]);
      assert !BlankLine(lines[0]) && c.decode(lines[0]) == Some(rs[0]);
      ParsedEncoded(c, rs[1..]);
      assert [rs[0]] + rs[1..] == rs;
    }
  }

  lemma ParsedFile(c: Codec<Receipt>, rs: seq<Receipt>)
    requires Lawful(c) && Inked(c)
    ensures Parsed(c, Lines(FileOf(c, rs))) == Some(rs)
  {
    LinesOfFile(c, rs, "");
    assert FileOf(c, rs) + "" == FileOf(c, rs);
    assert Encoded(c, rs) + [] == Encoded(c, rs);
    ParsedEncoded(c, rs);
  }

  function Upwards(from: nat, n: nat): seq<nat>
    requires from <= n
    decreases n - from
  {
    if from == n then [] else [from] + Upwards(from + 1, n)
  }

  lemma UpwardsBelow(from: nat, n: nat)
    requires from <= n
    ensures forall i :: 0 <= i < |Upwards(from, n)| ==> Upwards(from, n)[i] < n
    decreases n - from
  {
    if from < n {
      UpwardsBelow(from + 1, n);
    }
  }

  lemma {:induction false} AllRecordsFrom(groups: seq<Group>, i: nat)
    requires i < |groups|
    ensures AllRecords(groups[..i + 1]) == AllRecords(groups[..i]) + groups[i].records
  {
    assert groups[..i + 1][..i] == groups[..i];
  }

  lemma {:induction false} JoinReads(c: Codec<Receipt>, d: Digest, groups: seq<Group>, from: nat)
    requires Lawful(c) && Inked(c) && from <= |groups|
    requires forall i :: 0 <= i < |Upwards(from, |groups|)| ==> Upwards(from, |groups|)[i] < |groups|
    ensures var rs := JoinAll(c, ChunksOf(c, d, groups), Upwards(from, |groups|));
            rs.Some? && AllRecords(groups[..from]) + rs.value == AllRecords(groups)
    decreases |groups| - from
  {
    hide Parsed, FileOf, Lines;
    if from == |groups| {
      assert groups[..from] == groups;
      assert AllRecords(groups) + [] == AllRecords(groups);
    } else {
      UpwardsBelow(from + 1, |groups|);
      JoinReads(c, d, groups, from + 1);
      ParsedFile(c, groups[from].records);
      AllRecordsFrom(groups, from);
      var visit := Upwards(from, |groups|);
      assert visit[0] == from && visit[1..] == Upwards(from + 1, |groups|);
      var rest := JoinAll(c, ChunksOf(c, d, groups), visit[1..]).value;
      assert AllRecords(groups[..from]) + (groups[from].records + rest) == AllRecords(groups[..from + 1]) + rest;
    }
  }

  // ---------------------------------------------------------------------------
  // File names
  // ---------------------------------------------------------------------------

  /** `{n:06d}` */
  function Padded(n: nat, width: nat): string {
    if width == 0 then "" else Padded(n / 10, width - 1) + [DIGITS[n % 10]]
  }

  function ChunkName(index: nat): string {
    "chunk-" + (if index < 1_000_000 then Padded(index, 6) else Decimal(index)) + ".jsonl"
  }

  /** What `sorted` makes of the chunk files with the given number: every position once, in
      ascending order of names. */
  ghost predicate SortedByName(visit: seq<nat>, n: nat) {
    && |visit| == n
    && (forall i :: 0 <= i < n ==> visit[i] < n)
    && (forall i, j :: 0 <= i < j < n ==> Before(ChunkName(visit[i] + 1), ChunkName(visit[j] + 1)))
  }

  lemma PaddedLength(n: nat, width: nat)
    ensures |Padded(n, width)| == width
  {
  }

  lemma DigitsAscend(i: nat, j: nat)
    requires i < j < 10
    ensures DIGITS[i] < DIGITS[j]
  {
  }

  function Power(width: nat): nat {
    if width == 0 then 1 else 10 * Power(width - 1)
  }

  lemma {:induction false} PaddedAscends(i: nat, j: nat, width: nat)
    requires i < j < Power(width)
    ensures Before(Padded(i, width), Padded(j, width))
  {
    var a, b := Padded(i / 10, width - 1), Padded(j / 10, width - 1);
    var x, y := [DIGITS[i % 10]], [DIGITS[j % 10]];
    if i / 10 == j / 10 {
      DigitsAscend(i % 10, j % 10);
      BeforeCommonPrefix(a, x, y);
    } else {
      PaddedAscends(i / 10, j / 10, width - 1);
      PaddedLength(i / 10, width - 1);
      PaddedLength(j / 10, width - 1);
      BeforeExtends(a, b, x, y);
    }
  }

  lemma {:induction false} NamesAscend(i: nat, j: nat)
    requires i < j < 1_000_000
    ensures Before(ChunkName(i), ChunkName(j))
  {
    assert Power(6) == 1_000_000 by { PowerSix(); }
    PaddedAscends(i, j, 6);
    PaddedLength(i, 6);
    PaddedLength(j, 6);
    BeforeExtends(Padded(i, 6), Padded(j, 6), ".jsonl", ".jsonl");
    BeforeCommonPrefix("chunk-", Padded(i, 6) + ".jsonl", Padded(j, 6) + ".jsonl");
    assert ChunkName(i) == "chunk-" + (Padded(i, 6) + ".jsonl");
    assert ChunkName(j) == "chunk-" + (Padded(j, 6) + ".jsonl");
  }

  lemma PowerSix()
    ensures Power(6) == 1_000_000
  {
    assert Power(2) == 100;
    assert Power(4) == 10_000;
  }

  /** Below a million chunks the names sort as the numbers do. */
  lemma VisitAscends(visit: seq<nat>, n: nat)
    requires SortedByName(visit, n) && n < 1_000_000
    ensures forall i, j :: 0 <= i < j < n ==> visit[i] < visit[j]
  {
    hide Before, ChunkName;
    forall i, j | 0 <= i < j < n
      ensures visit[i] < visit[j]
    {
      if visit[j] < visit[i] {
        NamesAscend(visit[j] + 1, visit[i] + 1);
        BeforeAsymmetric(ChunkName(visit[j] + 1), ChunkName(visit[i] + 1));
      } else if visit[i] == visit[j] {
        BeforeIrreflexive(ChunkName(visit[i] + 1));
      }
    }
  }

  lemma {:induction false} AscendingFills(visit: seq<nat>, n: nat, i: nat)
    requires |visit| == n && i < n
    requires forall a :: 0 <= a < n ==> visit[a] < n
    requires forall a, b :: 0 <= a < b < n ==> visit[a] < visit[b]
    ensures i <= visit[i] && visit[n - 1 - i] <= n - 1 - i
  {
    if i > 0 {
      AscendingFills(visit, n, i - 1);
      assert visit[i - 1] < visit[i];
      assert visit[n - 1 - i] < visit[n - i];
    }
  }

  lemma {:induction false} UpwardsAt(from: nat, n: nat, i: nat)
    requires from <= n && i < n - from
    ensures |Upwards(from, n)| == n - from && Upwards(from, n)[i] == from + i
    decreases n - from
  {
    if from + 1 < n {
      UpwardsAt(from + 1, n, if i == 0 then 0 else i - 1);
    }
  }

  lemma SortedIsUpwards(visit: seq<nat>, n: nat)
    requires SortedByName(visit, n) && n < 1_000_000
    ensures visit == Upwards(0, n)
  {
    hide Before, ChunkName;
    VisitAscends(visit, n);
    if n > 0 {
      UpwardsAt(0, n, 0);
    }
    forall i | 0 <= i < n
      ensures |Upwards(0, n)| == n && visit[i] == Upwards(0, n)[i]
    {
      AscendingFills(visit, n, i);
      AscendingFills(visit, n, n - 1 - i);
      UpwardsAt(0, n, i);
    }
  }

  /** From then on they do not: chunk 1000000 is read before chunk 999999. */
  lemma MillionthChunkIsMisread()
    ensures Before(ChunkName(1_000_000), ChunkName(999_999))
  {
    var low, high := Decimal(1_000_000), Padded(999_999, 6);
    assert low[0] == '1' by { DigitsOfMillion(); }
    assert high[0] == '9' by { PaddedNines(); }
    assert Before(low + ".jsonl", high + ".jsonl");
    BeforeCommonPrefix("chunk-", low + ".jsonl", high + ".jsonl");
    assert ChunkName(1_000_000) == "chunk-" + (low + ".jsonl");
    assert ChunkName(999_999) == "chunk-" + (high + ".jsonl");
  }

  /** The order of file names is the order of chunks exactly below a million chunks. */
  lemma SortedIsUpwardsIff(visit: seq<nat>, n: nat)
    requires SortedByName(visit, n)
    ensures visit == Upwards(0, n) <==> n < 1_000_000
  {
    hide Before, ChunkName;
    if n < 1_000_000 {
      SortedIsUpwards(visit, n);
    } else if visit == Upwards(0, n) {
      UpwardsAt(0, n, 999_998);
      UpwardsAt(0, n, 999_999);
      MillionthChunkIsMisread();
      BeforeAsymmetric(ChunkName(1_000_000), ChunkName(999_999));
    }
  }

  lemma DigitsHead(n: nat)
    requires n >= 10
    ensures |Decimal(n / 10)| > 0 && |Decimal(n)| > 0 && Decimal(n)[0] == Decimal(n / 10)[0]
  {
  }

  lemma DigitsOfMillion()
    ensures |Decimal(1_000_000)| > 0 && Decimal(1_000_000)[0] == '1'
  {
    DigitsHead(1_000_000);
    DigitsHead(100_000);
    DigitsHead(10_000);
    DigitsHead(1_000);
    DigitsHead(100);
    DigitsHead(10);
    assert Decimal(1) == "1";
  }

  lemma PaddedNines()
    ensures |Padded(999_999, 6)| > 0 && Padded(999_999, 6)[0] == '9'
  {
    assert Padded(9, 1) == "9";
    assert Padded(99, 2)[0] == '9';
    assert Padded(999, 3)[0] == '9';
    assert Padded(9_999, 4)[0] == '9';
    assert Padded(99_999, 5)[0] == '9';
  }

  // ---------------------------------------------------------------------------
  // Whole runs
  // ---------------------------------------------------------------------------

  const NOTHING := Ledger([], [])

  lemma EmptyStore(c: Codec<Receipt>, d: Digest)
    ensures StoreOf(c, d, NOTHING) == Store([], "", 0, 0)
  {
  }

  lemma StoreReads(c: Codec<Receipt>, d: Digest, l: Ledger, visit: seq<nat>)
    requires Lawful(c) && Inked(c)
    requires SortedByName(visit, |l.groups|) && |l.groups| < 1_000_000
    ensures Records(c, StoreOf(c, d, l), visit) == Some(LedgerRecords(l))
  {
    hide Parsed, FileOf, Lines, SortedByName;
    SortedIsUpwards(visit, |l.groups|);
    UpwardsBelow(0, |l.groups|);
    JoinReads(c, d, l.groups, 0);
    ParsedFile(c, l.open);
    assert AllRecords(l.groups[..0]) == [] by { NothingGrouped(l.groups); }
    var rs := JoinAll(c, ChunksOf(c, d, l.groups), visit).value;
    assert [] + rs == rs;
  }

  lemma NothingGrouped(groups: seq<Group>)
    ensures AllRecords(groups[..0]) == []
  {
  }

  lemma ChunkChecks(c: Codec<Receipt>, d: Digest, g: Group, index: nat)
    requires Lawful(c) && Inked(c)
    ensures CheckSeal(c, d, ChunkOf(c, d, g, index)) == if g.sealed then Fine else MissingSeal
  {
    ParsedFile(c, g.records);
  }

  /** What operation `n` of a run closed, as the finished run holds it. */
  lemma ClosedBy(limit: nat, ops: seq<Operation>, n: nat, i: nat)
    requires n < |ops|
    requires |NotedAll(NOTHING, limit, ops[..n]).groups| <= i < |NotedAll(NOTHING, limit, ops[..n + 1]).groups|
    ensures i < |NotedAll(NOTHING, limit, ops).groups|
    ensures NotedAll(NOTHING, limit, ops).groups[i].sealed == !ops[n].SealTorn?
  {
    hide Noted;
    assert ops[..n + 1][..n] == ops[..n];
    NotedGroups(NotedAll(NOTHING, limit, ops[..n]), limit, ops[n]);
    GroupsOnlyGrow(limit, ops, n + 1);
  }

  /** From an empty directory, for any sequence of appends, flushes and seals, with stops
      between rename and seal anywhere: reading back gives exactly the appended records in
      order, chunks already there are never rewritten, and every chunk whose group was sealed
      passes its check while the others miss their seal. */
  lemma ReceiptsAreKept(c: Codec<Receipt>, d: Digest, limit: nat, ops: seq<Operation>, n: nat, visit: seq<nat>)
    requires Lawful(c) && Inked(c) && n <= |ops|
    requires var z := Ran(c, d, limit, Store([], "", 0, 0), ops); SortedByName(visit, |z.chunks|) && |z.chunks| < 1_000_000
    ensures var z := Ran(c, d, limit, Store([], "", 0, 0), ops);
            var groups := NotedAll(NOTHING, limit, ops).groups;
            && Records(c, z, visit) == Some(Appends(ops))
            && Ran(c, d, limit, Store([], "", 0, 0), ops[..n]).chunks <= z.chunks
            && |z.chunks| == |groups|
            && (forall i :: 0 <= i < |groups| ==> CheckSeal(c, d, z.chunks[i]) == if groups[i].sealed then Fine else MissingSeal)
            && ((forall i :: 0 <= i < |ops| ==> !ops[i].SealTorn?) ==> forall i :: 0 <= i < |z.chunks| ==> CheckSeal(c, d, z.chunks[i]).Fine?)
  {
    hide Ran, CheckSeal, Records, ChunkOf, Operated, NotedAll, SortedByName;
    EmptyStore(c, d);
    RunRefines(c, d, limit, NOTHING, ops);
    RunRefines(c, d, limit, NOTHING, ops[..n]);
    var l := NotedAll(NOTHING, limit, ops);
    LedgerHoldsAppends(NOTHING, limit, ops);
    assert LedgerRecords(NOTHING) + Appends(ops) == Appends(ops);
    StoreReads(c, d, l, visit);
    GroupsOnlyGrow(limit, ops, n);
    var m := NotedAll(NOTHING, limit, ops[..n]);
    assert ChunksOf(c, d, m.groups) <= ChunksOf(c, d, l.groups);
    forall i | 0 <= i < |l.groups|
      ensures CheckSeal(c, d, StoreOf(c, d, l).chunks[i]) == if l.groups[i].sealed then Fine else MissingSeal
    {
      ChunkChecks(c, d, l.groups[i], i + 1);
    }
  }

  /** In such a run an operation makes at most one chunk, and at the end the check of that chunk
      misses the seal if the operation was stopped before it wrote one, and finds nothing wrong
      otherwise. */
  lemma TornSealsAreMissed(c: Codec<Receipt>, d: Digest, limit: nat, ops: seq<Operation>, n: nat, i: nat)
    requires Lawful(c) && Inked(c) && n < |ops|
    requires |Ran(c, d, limit, Store([], "", 0, 0), ops[..n]).chunks| <= i
    requires i < |Ran(c, d, limit, Store([], "", 0, 0), ops[..n + 1]).chunks|
    ensures i == |Ran(c, d, limit, Store([], "", 0, 0), ops[..n]).chunks|
    ensures var z := Ran(c, d, limit, Store([], "", 0, 0), ops);
            i < |z.chunks| && CheckSeal(c, d, z.chunks[i]) == if ops[n].SealTorn? then MissingSeal else Fine
  {
    hide Ran, CheckSeal, ChunkOf, Operated, Noted;
    EmptyStore(c, d);
    RunRefines(c, d, limit, NOTHING, ops);
    RunRefines(c, d, limit, NOTHING, ops[..n]);
    RunRefines(c, d, limit, NOTHING, ops[..n + 1]);
    assert ops[..n + 1][..n] == ops[..n];
    NotedGroups(NotedAll(NOTHING, limit, ops[..n]), limit, ops[n]);
    ClosedBy(limit, ops, n, i);
    ChunkChecks(c, d, NotedAll(NOTHING, limit, ops).groups[i], i + 1);
  }

  /** Every chunk of a run was made by one of its operations. */
  lemma {:induction false} ChunkHasMaker(c: Codec<Receipt>, d: Digest, limit: nat, ops: seq<Operation>, i: nat) returns (n: nat)
    requires i < |Ran(c, d, limit, Store([], "", 0, 0), ops).chunks|
    ensures n < |ops|
    ensures |Ran(c, d, limit, Store([], "", 0, 0), ops[..n]).chunks| <= i
    ensures i < |Ran(c, d, limit, Store([], "", 0, 0), ops[..n + 1]).chunks|
  {
    hide Operated;
    var init := ops[..|ops| - 1];
    if i < |Ran(c, d, limit, Store([], "", 0, 0), init).chunks| {
      n := ChunkHasMaker(c, d, limit, init, i);
      assert init[..n] == ops[..n] && init[..n + 1] == ops[..n + 1];
    } else {
      n := |ops| - 1;
      assert ops[..n + 1] == ops;
    }
  }

  lemma {:induction false} GroupsOnlyGrow(limit: nat, ops: seq<Operation>, n: nat)
    requires n <= |ops|
    ensures NotedAll(NOTHING, limit, ops[..n]).groups <= NotedAll(NOTHING, limit, ops).groups
  {
    if n == |ops| {
      assert ops[..n] == ops;
    } else {
      var init := ops[..|ops| - 1];
      GroupsOnlyGrow(limit, init, n);
      assert init[..n] == ops[..n];
    }
  }
}
