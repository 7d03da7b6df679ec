/** Receipts in an active file that is sealed, chunk by chunk, under a digest. */
module ReceiptStore {
  import opened Wrappers
  import opened LineFiles
  import opened Texts

  datatype Receipt = Receipt(body: string, failed: bool)

  type Digest = string -> string

  datatype Seal = Seal(digest: string, recordCount: nat, failedCount: nat)

  datatype Chunk = Chunk(index: nat, content: string, seal: Option<Seal>)

  /** The directory and the counters of the object.  An absent active file and an empty one are
      the same to every operation. */
  datatype Store = Store(chunks: seq<Chunk>, active: string, count: nat, failed: nat)

  function Failures(rs: seq<Receipt>): nat {
    if rs == [] then 0 else Failures(rs[..|rs| - 1]) + (if rs[|rs| - 1].failed then 1 else 0)
  }

  // ---------------------------------------------------------------------------
  // Operations
  // ---------------------------------------------------------------------------

  function HighestIndex(chunks: seq<Chunk>): nat {
    if chunks == [] then 0
    else
      var h := HighestIndex(chunks[..|chunks| - 1]);
      if chunks[|chunks| - 1].index > h then chunks[|chunks| - 1].index else h
  }

  /** `os.replace` onto the chunk file with this index, overwriting it if there is one. */
  function Replaced(chunks: seq<Chunk>, index: nat, content: string): seq<Chunk> {
    if chunks == [] then [Chunk(index, content, None)]
    else if chunks[0].index == index then [Chunk(index, content, chunks[0].seal)] + chunks[1..]
    else [chunks[0]] + Replaced(chunks[1..], index, content)
  }

  function SealWritten(chunks: seq<Chunk>, index: nat, seal: Seal): seq<Chunk> {
    if chunks == [] then []
    else if chunks[0].index == index then [chunks[0].(seal := Some(seal))] + chunks[1..]
    else [chunks[0]] + SealWritten(chunks[1..], index, seal)
  }

  function Written(c: Codec<Receipt>, s: Store, r: Receipt): Store {
    Store(s.chunks, s.active + c.encode(r) + "\n", s.count + 1, s.failed + if r.failed then 1 else 0)
  }

  /** The rename that makes the active file a chunk. */
  function Renamed(s: Store): Store {
    s.(chunks := Replaced(s.chunks, HighestIndex(s.chunks) + 1, s.active), active := "")
  }

  function Sealed(d: Digest, s: Store): Store {
    if s.count == 0 then s
    else
      var index := HighestIndex(s.chunks) + 1;
      Store(SealWritten(Renamed(s).chunks, index, Seal(d(s.active), s.count, s.failed)), "", 0, 0)
  }

  /** `timeout`: at least thirty seconds since the last append. */
  function AppendedReceipt(c: Codec<Receipt>, d: Digest, limit: nat, s: Store, r: Receipt, timeout: bool): Store {
    var w := Written(c, s, r);
    if w.count >= limit || timeout then Sealed(d, w) else w
  }

  /** The longest prefix of lines that decode, and their number. */
  function Kept(c: Codec<Receipt>, raw: string): (string, nat) {
    if raw == "" then ("", 0)
    else
      var n := FirstBreak(raw);
      if c.decode(raw[..n]).None? then ("", 0)
      else if n == |raw| then (raw, 1)
      else
        var (text, good) := Kept(c, raw[n + 1..]);
        (raw[..n + 1] + text, good + 1)
  }

  /** A new object on the directory, after `recover_active`. */
  function Recovered(c: Codec<Receipt>, s: Store): Store {
    var (text, good) := Kept(c, s.active);
    Store(s.chunks, text, good, 0)
  }

  // ---------------------------------------------------------------------------
  // Reading
  // ---------------------------------------------------------------------------

  predicate BlankLine(line: string) {
    forall i :: 0 <= i < |line| ==> Blank(line[i])
  }

  /** The records on the lines; a line that is neither blank nor a record raises. */
  function Parsed(c: Codec<Receipt>, lines: seq<string>): Option<seq<Receipt>> {
    if lines == [] then Some([])
    else if BlankLine(lines[0]) then Parsed(c, lines[1..])
    else
      var r, rest := c.decode(lines[0]), Parsed(c, lines[1..]);
      if r.None? || rest.None? then None else Some([r.value] + rest.value)
  }

  function JoinAll(c: Codec<Receipt>, chunks: seq<Chunk>, visit: seq<nat>): Option<seq<Receipt>>
    requires forall i :: 0 <= i < |visit| ==> visit[i] < |chunks|
  {
    if visit == [] then Some([])
    else
      var first, rest := Parsed(c, Lines(chunks[visit[0]].content)), JoinAll(c, chunks, visit[1..]);
      if first.None? || rest.None? then None else Some(first.value + rest.value)
  }

  /** `iter_records`: the chunks in the order of their file names, then the active file. */
  function Records(c: Codec<Receipt>, s: Store, visit: seq<nat>): Option<seq<Receipt>>
    requires forall i :: 0 <= i < |visit| ==> visit[i] < |s.chunks|
  {
    var chunked, open := JoinAll(c, s.chunks, visit), Parsed(c, Lines(s.active));
    if chunked.None? || open.None? then None else Some(chunked.value + open.value)
  }

  datatype Check = Fine | MissingSeal | DigestMismatch | Raises | CountMismatch(records: bool, failures: bool)

  function CheckSeal(c: Codec<Receipt>, d: Digest, chunk: Chunk): Check {
    if chunk.seal.None? then MissingSeal
    else if chunk.seal.value.digest != d(chunk.content) then DigestMismatch
    else
      var rs := Parsed(c, Lines(chunk.content));
      if rs.None? then Raises
      else
        var records, failures := chunk.seal.value.recordCount != |rs.value|, chunk.seal.value.failedCount != Failures(rs.value);
        if records || failures then CountMismatch(records, failures) else Fine
  }

  // ---------------------------------------------------------------------------
  // The ledger a store represents
  // ---------------------------------------------------------------------------

  /** Some chunks may have lost their seal to a crash. */
  datatype Group = Group(records: seq<Receipt>, sealed: bool)

  datatype Ledger = Ledger(groups: seq<Group>, open: seq<Receipt>)

  /** Records are never blank lines. */
  ghost predicate Inked(c: Codec<Receipt>) {
    forall r :: !BlankLine(c.encode(r))
  }

  function ChunkOf(c: Codec<Receipt>, d: Digest, g: Group, index: nat): Chunk {
    var content := FileOf(c, g.records);
    Chunk(index, content, if g.sealed then Some(Seal(d(content), |g.records|, Failures(g.records))) else None)
  }

  function ChunksOf(c: Codec<Receipt>, d: Digest, groups: seq<Group>): (chunks: seq<Chunk>)
    ensures |chunks| == |groups|
    ensures forall i :: 0 <= i < |groups| ==> chunks[i] == ChunkOf(c, d, groups[i], i + 1)
  {
    seq(|groups|, i requires 0 <= i < |groups| => ChunkOf(c, d, groups[i], i + 1))
  }

  function StoreOf(c: Codec<Receipt>, d: Digest, l: Ledger): Store {
    Store(ChunksOf(c, d, l.groups), FileOf(c, l.open), |l.open|, Failures(l.open))
  }

  function AllRecords(groups: seq<Group>): seq<Receipt> {
    if groups == [] then [] else AllRecords(groups[..|groups| - 1]) + groups[|groups| - 1].records
  }

  function LedgerRecords(l: Ledger): seq<Receipt> {
    AllRecords(l.groups) + l.open
  }

  function Closed(l: Ledger, sealed: bool): Ledger {
    if l.open == [] then l else Ledger(l.groups + [Group(l.open, sealed)], [])
  }

  function Entered(l: Ledger, limit: nat, r: Receipt, timeout: bool): Ledger {
    var w := l.(open := l.open + [r]);
    if |w.open| >= limit || timeout then Closed(w, true) else w
  }
}
