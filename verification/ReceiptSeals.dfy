/** When a chunk is made and sealed, and what the check of its seal tells. */
module ReceiptSeals {
  import opened Wrappers
  import opened LineFiles
  import opened Texts
  import opened ReceiptStore
  import opened ReceiptRuns

  /** The failed records, counted. */
  lemma {:induction false} FailuresAreCounted(rs: seq<Receipt>)
    ensures Failures(rs) == |set i | 0 <= i < |rs| && rs[i].failed|
  {
    if rs != [] {
      var n := |rs| - 1;
      var before, after := set i | 0 <= i < n && rs[..n][i].failed, set i | 0 <= i < |rs| && rs[i].failed;
      FailuresAreCounted(rs[..n]);
      assert after == before + if rs[n].failed then {n} else {};
    }
  }

  /** What the check of a chunk tells, in the order in which it looks. */
  lemma CheckIff(c: Codec<Receipt>, d: Digest, chunk: Chunk)
    ensures var seal, rs, check := chunk.seal, Parsed(c, Lines(chunk.content)), CheckSeal(c, d, chunk);
            && (check == MissingSeal <==> seal == None)
            && (seal.Some? ==>
                  && (check == DigestMismatch <==> seal.value.digest != d(chunk.content))
                  && (check == Raises <==> seal.value.digest == d(chunk.content) && rs.None?)
                  && (rs.Some? && seal.value.digest == d(chunk.content) ==>
                        var records, failed := |rs.value|, |set i | 0 <= i < |rs.value| && rs.value[i].failed|;
                        check == if seal.value.recordCount == records && seal.value.failedCount == failed then Fine
                                 else CountMismatch(seal.value.recordCount != records, seal.value.failedCount != failed)))
  {
    hide Parsed, Lines, Failures;
    var rs := Parsed(c, Lines(chunk.content));
    if rs.Some? {
      FailuresAreCounted(rs.value);
    }
  }

  // ---------------------------------------------------------------------------
  // When chunks are made
  // ---------------------------------------------------------------------------

  /** The operation makes a chunk of a store with `count` open records: an append that reaches the
      limit or comes after a pause, and a seal if there is anything to seal. */
  ghost predicate Makes(limit: nat, count: nat, op: Operation) {
    match op
    case Append(_, timeout) => count + 1 == limit || timeout
    case Flush => false
    case SealNow => count > 0
    case SealTorn => count > 0
  }

  ghost function LineOf(c: Codec<Receipt>, op: Operation): string {
    if op.Append? then c.encode(op.record) + "\n" else ""
  }

  lemma {:induction false} OpenBelowLimit(limit: nat, ops: seq<Operation>)
    requires limit > 0
    ensures |NotedAll(NOTHING, limit, ops).open| < limit
  {
    if ops != [] {
      OpenBelowLimit(limit, ops[..|ops| - 1]);
    }
  }

  lemma NotedMakes(c: Codec<Receipt>, d: Digest, limit: nat, l: Ledger, op: Operation)
    requires |l.open| < limit
    ensures var s, z, n := StoreOf(c, d, l), StoreOf(c, d, Noted(l, limit, op)), |l.groups|;
            var content, count := s.active + LineOf(c, op), s.count + if op.Append? then 1 else 0;
            var failed := s.failed + if op.Append? && op.record.failed then 1 else 0;
            if Makes(limit, s.count, op) then
              && z.chunks == s.chunks + [Chunk(n + 1, content, if op.SealTorn? then None else Some(Seal(d(content), count, failed)))]
              && z.active == "" && z.count == 0 && z.failed == 0
            else z == Store(s.chunks, content, count, failed)
  {
    hide FileOf, Failures;
    NothingOpen(c);
    if op.Append? {
      OneMore(c, l.open, op.record);
      ChunksOfMore(c, d, l.groups, Group(l.open + [op.record], true));
    } else {
      var s := StoreOf(c, d, l);
      assert s.active + "" == s.active;
      if !op.Flush? && l.open != [] {
        ChunksOfMore(c, d, l.groups, Group(l.open, op.SealNow?));
      } else {
        assert Noted(l, limit, op) == l && !Makes(limit, s.count, op);
      }
    }
  }

  lemma OneMore(c: Codec<Receipt>, rs: seq<Receipt>, r: Receipt)
    ensures FileOf(c, rs + [r]) == FileOf(c, rs) + (c.encode(r) + "\n")
    ensures Failures(rs + [r]) == Failures(rs) + if r.failed then 1 else 0
  {
    hide FileOf;
    FileOfOneMore(c, rs, r);
    assert (rs + [r])[..|rs|] == rs;
  }

  /** Over every run from an empty directory: fewer records than the limit are open, a chunk is
      made exactly by an operation that makes one, and it holds the open lines, counted. */
  lemma MakesChunkIff(c: Codec<Receipt>, d: Digest, limit: nat, ops: seq<Operation>, n: nat)
    requires limit > 0 && n < |ops|
    ensures var s, z := Ran(c, d, limit, Store([], "", 0, 0), ops[..n]), Ran(c, d, limit, Store([], "", 0, 0), ops[..n + 1]);
            var op, content, count := ops[n], s.active + LineOf(c, ops[n]), s.count + if ops[n].Append? then 1 else 0;
            var failed := s.failed + if op.Append? && op.record.failed then 1 else 0;
            && s.count < limit
            && (if Makes(limit, s.count, op) then
                  && z.chunks == s.chunks
                     + [Chunk(|s.chunks| + 1, content, if op.SealTorn? then None else Some(Seal(d(content), count, failed)))]
                  && z.active == "" && z.count == 0 && z.failed == 0
                else z == Store(s.chunks, content, count, failed))
  {
    hide Ran, Noted, Makes, LineOf;
    EmptyStore(c, d);
    RunRefines(c, d, limit, NOTHING, ops[..n]);
    RunRefines(c, d, limit, NOTHING, ops[..n + 1]);
    OpenBelowLimit(limit, ops[..n]);
    assert ops[..n + 1][..n] == ops[..n];
    NotedMakes(c, d, limit, NotedAll(NOTHING, limit, ops[..n]), ops[n]);
  }

  // ---------------------------------------------------------------------------
  // Content that changed
  // ---------------------------------------------------------------------------

  ghost predicate Injective(d: Digest) {
    forall a, b :: d(a) == d(b) ==> a == b
  }

  /** A chunk that an operation of a run made and sealed is reported by the check exactly when its
      content is no longer what the run wrote. */
  lemma ChangeIsReported(c: Codec<Receipt>, d: Digest, limit: nat, ops: seq<Operation>, n: nat, i: nat, content: string)
    requires Lawful(c) && Inked(c) && Injective(d) && n < |ops| && !ops[n].SealTorn?
    requires |Ran(c, d, limit, Store([], "", 0, 0), ops[..n]).chunks| <= i
    requires i < |Ran(c, d, limit, Store([], "", 0, 0), ops[..n + 1]).chunks|
    ensures var z := Ran(c, d, limit, Store([], "", 0, 0), ops);
            i < |z.chunks| && CheckSeal(c, d, z.chunks[i].(content := content))
                              == if content == z.chunks[i].content then Fine else DigestMismatch
  {
    hide Ran, CheckSeal;
    TornSealsAreMissed(c, d, limit, ops, n, i);
    var chunk := Ran(c, d, limit, Store([], "", 0, 0), ops).chunks[i];
    CheckIff(c, d, chunk);
    CheckIff(c, d, chunk.(content := content));
    if content == chunk.content {
      assert chunk.(content := content) == chunk;
    } else {
      assert d(content) != d(chunk.content);
    }
  }
}
