/** The DSF container the conformance harness wraps its stimuli in, and a reader for it.
    Layout and sizes follow the DSD, fmt and data chunk sections of Sony's "DSF File Format
    Specification" version 1.01; the bits-per-sample field is carried, not interpreted. */
module DsfContainer {
  import opened Wrappers
  import opened Octets
  import opened SigmaDelta

  // ---------------------------------------------------------------------------
  // Little-endian fields
  // ---------------------------------------------------------------------------

  function Power256(width: nat): nat {
    if width == 0 then 1 else 256 * Power256(width - 1)
  }

  function LittleEndian(n: nat, width: nat): (bytes: seq<byte>)
    ensures |bytes| == width
  {
    if width == 0 then [] else [Octet(n % 256)] + LittleEndian(n / 256, width - 1)
  }

  function Number(bytes: seq<byte>): nat {
    if bytes == [] then 0 else Value(bytes[0]) + 256 * Number(bytes[1..])
  }

  lemma {:induction false} NumberOfLittleEndian(n: nat, width: nat)
    requires n < Power256(width)
    ensures Number(LittleEndian(n, width)) == n
  {
    if width > 0 {
      ValueOfOctet(n % 256);
      NumberOfLittleEndian(n / 256, width - 1);
      assert LittleEndian(n, width)[1..] == LittleEndian(n / 256, width - 1);
    }
  }

  lemma PowerValues()
    ensures Power256(4) == U32_LIMIT && Power256(8) == U64_LIMIT
  {
    assert Power256(1) == 256;
    assert Power256(2) == 0x1_0000;
    assert Power256(3) == 0x100_0000;
    assert Power256(4) == U32_LIMIT;
    assert Power256(5) == 0x100_0000_0000;
    assert Power256(6) == 0x1_0000_0000_0000;
    assert Power256(7) == 0x100_0000_0000_0000;
  }

  // Consecutive little-endian fields

  datatype Field = Field(value: nat, width: nat)

  function Layout(fields: seq<Field>): seq<byte> {
    if fields == [] then [] else LittleEndian(fields[0].value, fields[0].width) + Layout(fields[1..])
  }

  function Widths(fields: seq<Field>): seq<nat> {
    seq(|fields|, i requires 0 <= i < |fields| => fields[i].width)
  }

  function Values(fields: seq<Field>): seq<nat> {
    seq(|fields|, i requires 0 <= i < |fields| => fields[i].value)
  }

  /** The numbers stored one after the other in exactly `bytes`. */
  function ReadLayout(bytes: seq<byte>, widths: seq<nat>): (r: Option<seq<nat>>)
    ensures r.Some? ==> |r.value| == |widths|
  {
    if widths == [] then
      if bytes == [] then Some([]) else None
    else if |bytes| < widths[0] then None
    else
      match ReadLayout(bytes[widths[0]..], widths[1..])
      case None => None
      case Some(values) => Some([Number(bytes[..widths[0]])] + values)
  }

  lemma ReadCons(value: nat, width: nat, rest: seq<byte>, widths: seq<nat>)
    requires value < Power256(width)
    requires ReadLayout(rest, widths).Some?
    ensures ReadLayout(LittleEndian(value, width) + rest, [width] + widths)
         == Some([value] + ReadLayout(rest, widths).value)
  {
    var bytes := LittleEndian(value, width) + rest;
    NumberOfLittleEndian(value, width);
    assert bytes[..width] == LittleEndian(value, width) && bytes[width..] == rest;
    assert ([width] + widths)[1..] == widths;
  }

  ghost predicate Fits(fields: seq<Field>) {
    forall i :: 0 <= i < |fields| ==> fields[i].value < Power256(fields[i].width)
  }

  lemma {:induction false} ReadOfLayout(fields: seq<Field>)
    requires Fits(fields)
    ensures ReadLayout(Layout(fields), Widths(fields)) == Some(Values(fields))
  {
    if fields != [] {
      var f, rest := fields[0], fields[1..];
      assert Fits(rest) by {
        forall i | 0 <= i < |rest|
          ensures rest[i].value < Power256(rest[i].width)
        {
          assert rest[i] == fields[i + 1];
        }
      }
      ReadOfLayout(rest);
      ReadCons(f.value, f.width, Layout(rest), Widths(rest));
      assert Widths(fields) == [f.width] + Widths(rest);
      assert Values(fields) == [f.value] + Values(rest);
    }
  }

  lemma LayoutCons(field: Field, rest: seq<Field>)
    ensures |Layout([field] + rest)| == field.width + |Layout(rest)|
  {
    assert ([field] + rest)[1..] == rest;
  }

  // ---------------------------------------------------------------------------
  // Building
  // ---------------------------------------------------------------------------

  const DSD_BIT_RATE_HZ := 2822400
  const U32_LIMIT := 0x1_0000_0000
  const U64_LIMIT := 0x1_0000_0000_0000_0000

  const DSD_MAGIC: seq<byte> := [0x44, 0x53, 0x44, 0x20]
  const FMT_MAGIC: seq<byte> := [0x66, 0x6d, 0x74, 0x20]
  const DATA_MAGIC: seq<byte> := [0x64, 0x61, 0x74, 0x61]

  const HEADER_WIDTHS: seq<nat> := [8, 8]
  const FORMAT_WIDTHS: seq<nat> := [4, 4, 4, 4, 4, 4, 8, 4, 4]

  function HeaderFields(fileSize: nat): seq<Field> {
    [Field(fileSize, 8), Field(0, 8)]
  }

  function FormatFields(sampleCount: nat): seq<Field> {
    [Field(1, 4), Field(0, 4), Field(2, 4), Field(2, 4), Field(DSD_BIT_RATE_HZ, 4),
     Field(8, 4), Field(sampleCount, 8), Field(4096, 4), Field(0, 4)]
  }

  function Chunk(magic: seq<byte>, size: nat, body: seq<byte>): seq<byte> {
    magic + LittleEndian(size, 8) + body
  }

  /** None where packing a size or the sample count into eight bytes raises. */
  function BuildDsf(sampleCount: int, payload: seq<byte>): Option<seq<byte>> {
    var dataSize := 12 + |payload|;
    var fileSize := 28 + 52 + dataSize;
    if !(0 <= sampleCount < U64_LIMIT) || fileSize >= U64_LIMIT then None
    else
      var header := Chunk(DSD_MAGIC, 28, Layout(HeaderFields(fileSize)));
      var fmt := Chunk(FMT_MAGIC, 52, Layout(FormatFields(sampleCount)));
      var data := Chunk(DATA_MAGIC, dataSize, payload);
      Some(header + (fmt + data))
  }

  // ---------------------------------------------------------------------------
  // Reading: an independent walk over the chunk sizes
  // ---------------------------------------------------------------------------

  datatype Dsf = Dsf(channels: nat, rate: nat, bitsPerSample: nat, sampleCount: nat,
                     blockSize: nat, payload: seq<byte>)

  /** The body of the chunk at the head of `bytes`, and what follows the chunk; the size
      field counts the whole chunk. */
  function TakeChunk(bytes: seq<byte>, magic: seq<byte>): Option<(seq<byte>, seq<byte>)> {
    if |bytes| < 12 || bytes[..4] != magic then None
    else
      var size := Number(bytes[4..12]);
      if size < 12 || size > |bytes| then None else Some((bytes[12..size], bytes[size..]))
  }

  function ReadDsf(blob: seq<byte>): Option<Dsf> {
    match TakeChunk(blob, DSD_MAGIC)
    case None => None
    case Some((header, afterHeader)) =>
      match TakeChunk(afterHeader, FMT_MAGIC)
      case None => None
      case Some((fmt, afterFmt)) =>
        match TakeChunk(afterFmt, DATA_MAGIC)
        case None => None
        case Some((payload, rest)) => Interpret(|blob|, header, fmt, payload, rest)
  }

  function Interpret(size: nat, header: seq<byte>, fmt: seq<byte>, payload: seq<byte>, rest: seq<byte>): Option<Dsf> {
    var h, f := ReadLayout(header, HEADER_WIDTHS), ReadLayout(fmt, FORMAT_WIDTHS);
    if h.None? || f.None? || h.value[0] != size || rest != [] then None
    else Some(Dsf(f.value[3], f.value[4], f.value[5], f.value[6], f.value[7], payload))
  }

  lemma TakeOwnChunk(magic: seq<byte>, size: nat, body: seq<byte>, rest: seq<byte>)
    requires |magic| == 4 && size == 12 + |body| && size < U64_LIMIT
    ensures TakeChunk(Chunk(magic, size, body) + rest, magic) == Some((body, rest))
  {
    var whole := Chunk(magic, size, body) + rest;
    PowerValues();
    NumberOfLittleEndian(size, 8);
    assert whole[..4] == magic && whole[4..12] == LittleEndian(size, 8);
    assert whole[12..size] == body && whole[size..] == rest;
  }

  lemma HeaderSize(fileSize: nat)
    ensures |Layout(HeaderFields(fileSize))| == 16
  {
    LayoutCons(Field(0, 8), []);
    LayoutCons(Field(fileSize, 8), [Field(0, 8)]);
    assert HeaderFields(fileSize) == [Field(fileSize, 8)] + [Field(0, 8)];
    assert [Field(0, 8)] + [] == [Field(0, 8)];
  }

  lemma FormatSize(sampleCount: nat)
    ensures |Layout(FormatFields(sampleCount))| == 40
  {
    var f := FormatFields(sampleCount);
    assert f[9..] == [];
    LayoutTail(f, 8);
    LayoutTail(f, 7);
    LayoutTail(f, 6);
    LayoutTail(f, 5);
    LayoutTail(f, 4);
    LayoutTail(f, 3);
    LayoutTail(f, 2);
    LayoutTail(f, 1);
    LayoutTail(f, 0);
    assert f[0..] == f;
  }

  lemma LayoutTail(fields: seq<Field>, i: nat)
    requires i < |fields|
    ensures |Layout(fields[i..])| == fields[i].width + |Layout(fields[i + 1..])|
  {
    assert fields[i..] == [fields[i]] + fields[i + 1..];
    LayoutCons(fields[i], fields[i + 1..]);
  }

  lemma HeaderFits(fileSize: nat)
    requires fileSize < U64_LIMIT
    ensures Fits(HeaderFields(fileSize))
  {
    PowerValues();
  }

  lemma HeaderReads(fileSize: nat)
    requires fileSize < U64_LIMIT
    ensures ReadLayout(Layout(HeaderFields(fileSize)), HEADER_WIDTHS) == Some([fileSize, 0])
  {
    HeaderFits(fileSize);
    ReadOfLayout(HeaderFields(fileSize));
    assert Widths(HeaderFields(fileSize)) == HEADER_WIDTHS;
    assert Values(HeaderFields(fileSize)) == [fileSize, 0];
  }

  lemma FormatFits(sampleCount: nat)
    requires sampleCount < U64_LIMIT
    ensures Fits(FormatFields(sampleCount))
  {
    PowerValues();
  }

  lemma FormatWidths(sampleCount: nat)
    ensures Widths(FormatFields(sampleCount)) == FORMAT_WIDTHS
  {
  }

  lemma FormatValues(sampleCount: nat)
    ensures Values(FormatFields(sampleCount)) == [1, 0, 2, 2, DSD_BIT_RATE_HZ, 8, sampleCount, 4096, 0]
  {
  }

  lemma FormatReads(sampleCount: nat)
    requires sampleCount < U64_LIMIT
    ensures ReadLayout(Layout(FormatFields(sampleCount)), FORMAT_WIDTHS)
         == Some([1, 0, 2, 2, DSD_BIT_RATE_HZ, 8, sampleCount, 4096, 0])
  {
    FormatFits(sampleCount);
    ReadOfLayout(FormatFields(sampleCount));
    FormatWidths(sampleCount);
    FormatValues(sampleCount);
  }

  lemma InterpretBuilt(sampleCount: nat, payload: seq<byte>, fileSize: nat)
    requires sampleCount < U64_LIMIT && fileSize < U64_LIMIT
    ensures Interpret(fileSize, Layout(HeaderFields(fileSize)), Layout(FormatFields(sampleCount)), payload, [])
         == Some(Dsf(2, DSD_BIT_RATE_HZ, 8, sampleCount, 4096, payload))
  {
    HeaderReads(fileSize);
    FormatReads(sampleCount);
  }

  lemma ChunkLength(magic: seq<byte>, size: nat, body: seq<byte>)
    requires |magic| == 4 && size < U64_LIMIT
    ensures |Chunk(magic, size, body)| == 12 + |body|
  {
    PowerValues();
    NumberOfLittleEndian(size, 8);
  }

  lemma WalkChunks(h: seq<byte>, f: seq<byte>, payload: seq<byte>)
    requires |h| == 16 && |f| == 40 && |payload| + 12 < U64_LIMIT
    ensures var blob := Chunk(DSD_MAGIC, 28, h) + (Chunk(FMT_MAGIC, 52, f) + Chunk(DATA_MAGIC, 12 + |payload|, payload));
            |blob| == 92 + |payload| && ReadDsf(blob) == Interpret(|blob|, h, f, payload, [])
  {
    hide TakeChunk, Chunk, Interpret;
    var data := Chunk(DATA_MAGIC, 12 + |payload|, payload);
    var fmt := Chunk(FMT_MAGIC, 52, f);
    ChunkLength(DSD_MAGIC, 28, h);
    ChunkLength(FMT_MAGIC, 52, f);
    ChunkLength(DATA_MAGIC, 12 + |payload|, payload);
    TakeOwnChunk(DSD_MAGIC, 28, h, fmt + data);
    TakeOwnChunk(FMT_MAGIC, 52, f, data);
    TakeOwnChunk(DATA_MAGIC, 12 + |payload|, payload, []);
    assert data + [] == data;
  }

  /** Walking the chunk sizes of a built blob consumes it exactly and returns what went in. */
  lemma ReadOfBuild(sampleCount: int, payload: seq<byte>)
    ensures BuildDsf(sampleCount, payload).Some? <==>
            (0 <= sampleCount < U64_LIMIT && |payload| + 92 < U64_LIMIT)
    ensures BuildDsf(sampleCount, payload).Some? ==>
            (ReadDsf(BuildDsf(sampleCount, payload).value)
             == Some(Dsf(2, DSD_BIT_RATE_HZ, 8, sampleCount, 4096, payload)))
  {
    hide ReadDsf, Chunk, Layout, Interpret;
    if BuildDsf(sampleCount, payload).Some? {
      var fileSize := 92 + |payload|;
      HeaderSize(fileSize);
      FormatSize(sampleCount);
      WalkChunks(Layout(HeaderFields(fileSize)), Layout(FormatFields(sampleCount)), payload);
      InterpretBuilt(sampleCount, payload, fileSize);
    }
  }

  // ---------------------------------------------------------------------------
  // The container byte by byte
  // ---------------------------------------------------------------------------

  /** The number stored least significant byte first in `width` bytes from `at` on. */
  function NumberAt(bytes: seq<byte>, at: nat, width: nat): nat
    requires at + width <= |bytes|
    decreases width
  {
    if width == 0 then 0 else bytes[at] as nat + 256 * NumberAt(bytes, at + 1, width - 1)
  }

  lemma {:induction false} NumberOfSlice(bytes: seq<byte>, at: nat, width: nat)
    requires at + width <= |bytes|
    ensures NumberAt(bytes, at, width) == Number(bytes[at..at + width])
    decreases width
  {
    hide Value;
    if width > 0 {
      ValueIsNumber(bytes[at]);
      NumberOfSlice(bytes, at + 1, width - 1);
      assert bytes[at..at + width][1..] == bytes[at + 1..at + width];
    }
  }

  lemma NumberStored(bytes: seq<byte>, at: nat, width: nat, value: nat)
    requires at + width <= |bytes| && value < Power256(width)
    requires bytes[at..at + width] == LittleEndian(value, width)
    ensures NumberAt(bytes, at, width) == value
  {
    NumberOfSlice(bytes, at, width);
    NumberOfLittleEndian(value, width);
  }

  function Offset(fields: seq<Field>, i: nat): nat
    requires i <= |fields|
  {
    if i == 0 then 0 else Offset(fields, i - 1) + fields[i - 1].width
  }

  lemma {:induction false} LayoutFrom(fields: seq<Field>, i: nat)
    requires i <= |fields|
    ensures Offset(fields, i) <= |Layout(fields)| && Layout(fields)[Offset(fields, i)..] == Layout(fields[i..])
  {
    if i == 0 {
      assert fields[0..] == fields;
    } else {
      LayoutFrom(fields, i - 1);
      LayoutTail(fields, i - 1);
      var tail := Layout(fields[i - 1..]);
      assert fields[i - 1..][0] == fields[i - 1] && fields[i - 1..][1..] == fields[i..];
      assert tail[fields[i - 1].width..] == Layout(fields[i..]);
      assert Layout(fields)[Offset(fields, i)..] == tail[fields[i - 1].width..];
    }
  }

  lemma FieldStored(fields: seq<Field>, i: nat)
    requires i < |fields| && Fits(fields)
    ensures Offset(fields, i) + fields[i].width <= |Layout(fields)|
    ensures NumberAt(Layout(fields), Offset(fields, i), fields[i].width) == fields[i].value
  {
    LayoutFrom(fields, i);
    LayoutTail(fields, i);
    var at, w := Offset(fields, i), fields[i].width;
    var tail := Layout(fields[i..]);
    assert fields[i..][0] == fields[i];
    assert tail[..w] == LittleEndian(fields[i].value, w);
    assert Layout(fields)[at..at + w] == Layout(fields)[at..][..w];
    NumberStored(Layout(fields), at, w, fields[i].value);
  }

  lemma {:induction false} NumberMoves(outer: seq<byte>, start: nat, inner: seq<byte>, at: nat, width: nat)
    requires start + |inner| <= |outer| && outer[start..start + |inner|] == inner && at + width <= |inner|
    ensures NumberAt(outer, start + at, width) == NumberAt(inner, at, width)
    decreases width
  {
    if width > 0 {
      NumberMoves(outer, start, inner, at + 1, width - 1);
      assert inner[at] == outer[start + at];
    }
  }

  lemma HeaderNumbers(fileSize: nat)
    requires fileSize < U64_LIMIT
    ensures var h := Layout(HeaderFields(fileSize));
            |h| == 16 && NumberAt(h, 0, 8) == fileSize && NumberAt(h, 8, 8) == 0
  {
    hide Layout, NumberAt, Fits;
    HeaderSize(fileSize);
    HeaderFits(fileSize);
    FieldStored(HeaderFields(fileSize), 0);
    FieldStored(HeaderFields(fileSize), 1);
    assert Offset(HeaderFields(fileSize), 1) == 8;
  }

  lemma OffsetNext(fields: seq<Field>, i: nat)
    requires i < |fields|
    ensures Offset(fields, 0) == 0 && Offset(fields, i + 1) == Offset(fields, i) + fields[i].width
  {
  }

  lemma FormatOffsets(sampleCount: nat)
    ensures var f := FormatFields(sampleCount);
            && Offset(f, 0) == 0 && Offset(f, 1) == 4 && Offset(f, 2) == 8 && Offset(f, 3) == 12 && Offset(f, 4) == 16
            && Offset(f, 5) == 20 && Offset(f, 6) == 24 && Offset(f, 7) == 32 && Offset(f, 8) == 36
  {
    hide Offset;
    var f := FormatFields(sampleCount);
    OffsetNext(f, 0);
    OffsetNext(f, 1);
    OffsetNext(f, 2);
    OffsetNext(f, 3);
    OffsetNext(f, 4);
    OffsetNext(f, 5);
    OffsetNext(f, 6);
    OffsetNext(f, 7);
  }

  lemma FormatNumbers(sampleCount: nat)
    requires sampleCount < U64_LIMIT
    ensures var f := Layout(FormatFields(sampleCount));
            && |f| == 40
            && NumberAt(f, 0, 4) == 1 && NumberAt(f, 4, 4) == 0 && NumberAt(f, 8, 4) == 2 && NumberAt(f, 12, 4) == 2
            && NumberAt(f, 16, 4) == 2822400 && NumberAt(f, 20, 4) == 8 && NumberAt(f, 24, 8) == sampleCount
            && NumberAt(f, 32, 4) == 4096 && NumberAt(f, 36, 4) == 0
  {
    hide Layout, NumberAt, Fits, Offset;
    var f := FormatFields(sampleCount);
    FormatSize(sampleCount);
    FormatFits(sampleCount);
    FormatOffsets(sampleCount);
    FieldStored(f, 0);
    FieldStored(f, 1);
    FieldStored(f, 2);
    FieldStored(f, 3);
    FieldStored(f, 4);
    FieldStored(f, 5);
    FieldStored(f, 6);
    FieldStored(f, 7);
    FieldStored(f, 8);
  }

  lemma ChunkParts(magic: seq<byte>, size: nat, body: seq<byte>)
    requires |magic| == 4 && size < U64_LIMIT
    ensures var chunk := Chunk(magic, size, body);
            |chunk| == 12 + |body| && chunk[0..4] == magic && NumberAt(chunk, 4, 8) == size && chunk[12..12 + |body|] == body
  {
    hide NumberAt;
    var chunk := Chunk(magic, size, body);
    PowerValues();
    ChunkLength(magic, size, body);
    assert chunk[4..12] == LittleEndian(size, 8);
    NumberStored(chunk, 4, 8, size);
  }

  lemma SubSlice(outer: seq<byte>, start: nat, inner: seq<byte>, i: nat, j: nat)
    requires start + |inner| <= |outer| && outer[start..start + |inner|] == inner && i <= j <= |inner|
    ensures outer[start + i..start + j] == inner[i..j]
  {
    var slice := outer[start..start + |inner|];
    forall k | 0 <= k < j - i
      ensures outer[start + i..start + j][k] == slice[i..j][k]
    {
      assert slice[i + k] == outer[start + i + k];
    }
  }

  lemma Thirds(a: seq<byte>, b: seq<byte>, c: seq<byte>)
    ensures var s := a + (b + c);
            |s| == |a| + |b| + |c| && s[0..|a|] == a && s[|a|..|a| + |b|] == b && s[|a| + |b|..|a| + |b| + |c|] == c
  {
    var s := a + (b + c);
    assert s[0..|a|] == a;
    assert s[|a|..|a| + |b|] == b;
    assert s[|a| + |b|..|a| + |b| + |c|] == c;
  }

  lemma ChunkPlaced(blob: seq<byte>, at: nat, magic: seq<byte>, size: nat, body: seq<byte>)
    requires |magic| == 4 && size < U64_LIMIT
    requires at + 12 + |body| <= |blob| && blob[at..at + 12 + |body|] == Chunk(magic, size, body)
    ensures blob[at..at + 4] == magic && NumberAt(blob, at + 4, 8) == size && blob[at + 12..at + 12 + |body|] == body
  {
    hide Chunk, NumberAt;
    var chunk := Chunk(magic, size, body);
    ChunkParts(magic, size, body);
    SubSlice(blob, at, chunk, 0, 4);
    SubSlice(blob, at, chunk, 12, 12 + |body|);
    NumberMoves(blob, at, chunk, 4, 8);
  }

  lemma HeaderInBlob(blob: seq<byte>, fileSize: nat)
    requires fileSize < U64_LIMIT && 28 <= |blob| && blob[12..28] == Layout(HeaderFields(fileSize))
    ensures NumberAt(blob, 12, 8) == fileSize && NumberAt(blob, 20, 8) == 0
  {
    hide Layout, NumberAt;
    var h := Layout(HeaderFields(fileSize));
    HeaderNumbers(fileSize);
    NumberMoves(blob, 12, h, 0, 8);
    NumberMoves(blob, 12, h, 8, 8);
  }

  lemma FormatInBlob(blob: seq<byte>, sampleCount: nat)
    requires sampleCount < U64_LIMIT && 80 <= |blob| && blob[40..80] == Layout(FormatFields(sampleCount))
    ensures NumberAt(blob, 40, 4) == 1 && NumberAt(blob, 44, 4) == 0 && NumberAt(blob, 48, 4) == 2 && NumberAt(blob, 52, 4) == 2
    ensures NumberAt(blob, 56, 4) == 2822400 && NumberAt(blob, 60, 4) == 8 && NumberAt(blob, 64, 8) == sampleCount
    ensures NumberAt(blob, 72, 4) == 4096 && NumberAt(blob, 76, 4) == 0
  {
    hide Layout, NumberAt;
    var f := Layout(FormatFields(sampleCount));
    FormatNumbers(sampleCount);
    NumberMoves(blob, 40, f, 0, 4);
    NumberMoves(blob, 40, f, 4, 4);
    NumberMoves(blob, 40, f, 8, 4);
    NumberMoves(blob, 40, f, 12, 4);
    NumberMoves(blob, 40, f, 16, 4);
    NumberMoves(blob, 40, f, 20, 4);
    NumberMoves(blob, 40, f, 24, 8);
    NumberMoves(blob, 40, f, 32, 4);
    NumberMoves(blob, 40, f, 36, 4);
  }

  lemma ChunksInPlace(h: seq<byte>, f: seq<byte>, payload: seq<byte>)
    requires |h| == 16 && |f| == 40 && |payload| + 12 < U64_LIMIT
    ensures var blob := Chunk(DSD_MAGIC, 28, h) + (Chunk(FMT_MAGIC, 52, f) + Chunk(DATA_MAGIC, 12 + |payload|, payload));
            && |blob| == 92 + |payload|
            && blob[..4] == [0x44, 0x53, 0x44, 0x20] && NumberAt(blob, 4, 8) == 28 && blob[12..28] == h
            && blob[28..32] == [0x66, 0x6d, 0x74, 0x20] && NumberAt(blob, 32, 8) == 52 && blob[40..80] == f
            && blob[80..84] == [0x64, 0x61, 0x74, 0x61] && NumberAt(blob, 84, 8) == 12 + |payload| && blob[92..] == payload
  {
    hide Chunk, NumberAt;
    var header, fmt, data := Chunk(DSD_MAGIC, 28, h), Chunk(FMT_MAGIC, 52, f), Chunk(DATA_MAGIC, 12 + |payload|, payload);
    var blob := header + (fmt + data);
    ChunkLength(DSD_MAGIC, 28, h);
    ChunkLength(FMT_MAGIC, 52, f);
    ChunkLength(DATA_MAGIC, 12 + |payload|, payload);
    Thirds(header, fmt, data);
    ChunkPlaced(blob, 0, DSD_MAGIC, 28, h);
    ChunkPlaced(blob, 28, FMT_MAGIC, 52, f);
    ChunkPlaced(blob, 80, DATA_MAGIC, 12 + |payload|, payload);
  }

  /** Every byte of a built container: "DSD ", "fmt " and "data" in ASCII, and the numbers of the
      format least significant byte first at their offsets. */
  lemma BuiltBytes(sampleCount: nat, payload: seq<byte>)
    requires sampleCount < U64_LIMIT && |payload| + 92 < U64_LIMIT
    ensures var blob := BuildDsf(sampleCount, payload).value;
            && |blob| == 92 + |payload|
            && blob[..4] == [0x44, 0x53, 0x44, 0x20] && NumberAt(blob, 4, 8) == 28
            && NumberAt(blob, 12, 8) == 92 + |payload| && NumberAt(blob, 20, 8) == 0
            && blob[28..32] == [0x66, 0x6d, 0x74, 0x20] && NumberAt(blob, 32, 8) == 52
            && NumberAt(blob, 40, 4) == 1 && NumberAt(blob, 44, 4) == 0 && NumberAt(blob, 48, 4) == 2 && NumberAt(blob, 52, 4) == 2
            && NumberAt(blob, 56, 4) == 2822400 && NumberAt(blob, 60, 4) == 8 && NumberAt(blob, 64, 8) == sampleCount
            && NumberAt(blob, 72, 4) == 4096 && NumberAt(blob, 76, 4) == 0
            && blob[80..84] == [0x64, 0x61, 0x74, 0x61] && NumberAt(blob, 84, 8) == 12 + |payload| && blob[92..] == payload
  {
    hide Chunk, NumberAt, Layout;
    var blob := BuildDsf(sampleCount, payload).value;
    HeaderSize(92 + |payload|);
    FormatSize(sampleCount);
    ChunksInPlace(Layout(HeaderFields(92 + |payload|)), Layout(FormatFields(sampleCount)), payload);
    HeaderInBlob(blob, 92 + |payload|);
    FormatInBlob(blob, sampleCount);
  }

  // ---------------------------------------------------------------------------
  // Interleaving in 4096-byte blocks
  // ---------------------------------------------------------------------------

  function Padding(n: nat): (pad: nat)
    ensures pad < 4096 && (n + pad) % 4096 == 0
  {
    var negated: int := 0 - n;
    negated % 4096
  }

  function Padded(mono: seq<byte>): (padded: seq<byte>)
    ensures |padded| % 4096 == 0 && mono <= padded && |padded| < |mono| + 4096
    ensures forall i :: |mono| <= i < |padded| ==> padded[i] == 0
  {
    mono + seq(Padding(|mono|), _ => 0)
  }

  /** Where byte `i` of channel `c` of a stereo payload is stored. */
  function Slot(i: nat, c: nat): nat {
    (i / 4096) * 8192 + c * 4096 + i % 4096
  }

  /** The bytes of one channel of a stereo payload made of whole blocks. */
  function Deinterleave(payload: seq<byte>, c: nat): (mono: seq<byte>)
    requires |payload| % 8192 == 0 && c < 2
    ensures |mono| == |payload| / 2
  {
    seq(|payload| / 2, i requires 0 <= i < |payload| / 2 => payload[Slot(i, c)])
  }

  /** `payload` holds the first `n` bytes of `left` and of `right`, block by block. */
  ghost predicate Interleaved(payload: seq<byte>, left: seq<byte>, right: seq<byte>, n: nat) {
    && n % 4096 == 0 && n <= |left| && n <= |right|
    && |payload| == 2 * n
    && (forall i :: 0 <= i < n ==> payload[Slot(i, 0)] == left[i] && payload[Slot(i, 1)] == right[i])
  }

  lemma InterleaveOneBlock(payload: seq<byte>, left: seq<byte>, right: seq<byte>, n: nat)
    requires Interleaved(payload, left, right, n) && n + 4096 <= |left| && n + 4096 <= |right|
    ensures Interleaved(payload + left[n..n + 4096] + right[n..n + 4096], left, right, n + 4096)
  {
    var grown := payload + left[n..n + 4096] + right[n..n + 4096];
    forall i | 0 <= i < n + 4096
      ensures grown[Slot(i, 0)] == left[i] && grown[Slot(i, 1)] == right[i]
    {
      if i < n {
        assert i / 4096 < n / 4096;
      } else {
        assert i / 4096 == n / 4096 && i % 4096 == i - n;
      }
    }
  }

  lemma InterleavedWhole(payload: seq<byte>, left: seq<byte>, right: seq<byte>)
    requires |left| == |right| && Interleaved(payload, left, right, |left|)
    ensures |payload| == 2 * |left| && |payload| % 8192 == 0
    ensures Deinterleave(payload, 0) == left && Deinterleave(payload, 1) == right
  {
  }

  /** Block by block: 4096 bytes of the left channel, 4096 of the right. */
  lemma InterleavedPlaces(payload: seq<byte>, left: seq<byte>, right: seq<byte>)
    requires |left| == |right| && Interleaved(payload, left, right, |left|)
    ensures forall i :: 0 <= i < |left| ==>
              && 8192 * (i / 4096) + 4096 + i % 4096 < |payload|
              && payload[8192 * (i / 4096) + i % 4096] == left[i] && payload[8192 * (i / 4096) + 4096 + i % 4096] == right[i]
  {
    forall i | 0 <= i < |left|
      ensures 8192 * (i / 4096) + 4096 + i % 4096 < |payload|
      ensures payload[8192 * (i / 4096) + i % 4096] == left[i] && payload[8192 * (i / 4096) + 4096 + i % 4096] == right[i]
    {
      assert Slot(i, 0) == 8192 * (i / 4096) + i % 4096 && Slot(i, 1) == 8192 * (i / 4096) + 4096 + i % 4096;
    }
  }

  /** One mono stream in both channels. */
  method DsfBlockPayload(mono: seq<byte>) returns (payload: seq<byte>)
    ensures |payload| == 2 * |Padded(mono)| && |payload| % 8192 == 0
    ensures Deinterleave(payload, 0) == Padded(mono) && Deinterleave(payload, 1) == Padded(mono)
    ensures forall i :: 0 <= i < |Padded(mono)| ==>
              payload[8192 * (i / 4096) + i % 4096] == payload[8192 * (i / 4096) + 4096 + i % 4096] == Padded(mono)[i]
  {
    hide Interleaved, Deinterleave;
    var padded := Padded(mono);
    payload := [];
    var offset := 0;
    NothingInterleaved(padded, padded);
    while offset < |padded|
      invariant offset <= |padded| && offset % 4096 == 0
      invariant Interleaved(payload, padded, padded, offset)
    {
      var block := padded[offset..offset + 4096];
      InterleaveOneBlock(payload, padded, padded, offset);
      payload := payload + block + block;
      offset := offset + 4096;
    }
    InterleavedWhole(payload, padded, padded);
    InterleavedPlaces(payload, padded, padded);
  }

  lemma NothingInterleaved(left: seq<byte>, right: seq<byte>)
    ensures Interleaved([], left, right, 0)
  {
  }

  /** Two independent channels; refused exactly when their padded lengths differ. */
  method DsfStereoPayload(left: seq<byte>, right: seq<byte>) returns (payload: Option<seq<byte>>)
    ensures payload.None? <==> |Padded(left)| != |Padded(right)|
    ensures payload.Some? ==>
      && |payload.value| == 2 * |Padded(left)| && |payload.value| % 8192 == 0
      && Deinterleave(payload.value, 0) == Padded(left)
      && Deinterleave(payload.value, 1) == Padded(right)
      && forall i :: 0 <= i < |Padded(left)| ==>
           payload.value[8192 * (i / 4096) + i % 4096] == Padded(left)[i]
           && payload.value[8192 * (i / 4096) + 4096 + i % 4096] == Padded(right)[i]
  {
    hide Interleaved, Deinterleave;
    var l, r := Padded(left), Padded(right);
    if |l| != |r| {
      return None;
    }
    var built: seq<byte> := [];
    var offset := 0;
    NothingInterleaved(l, r);
    while offset < |l|
      invariant offset <= |l| && offset % 4096 == 0
      invariant Interleaved(built, l, r, offset)
    {
      InterleaveOneBlock(built, l, r, offset);
      built := built + l[offset..offset + 4096];
      built := built + r[offset..offset + 4096];
      offset := offset + 4096;
    }
    InterleavedWhole(built, l, r);
    InterleavedPlaces(built, l, r);
    payload := Some(built);
  }

  // ---------------------------------------------------------------------------
  // Modulate, pad, interleave and wrap
  // ---------------------------------------------------------------------------

  /** The DSD bits of channel `c` that a reader obtains from a container. */
  function ChannelBits(dsf: Dsf, c: nat): Option<seq<bool>>
    requires c < 2
  {
    if |dsf.payload| % 8192 != 0 || dsf.sampleCount > 4 * |dsf.payload| then None
    else Some(UnpackBits(Deinterleave(dsf.payload, c), dsf.sampleCount))
  }

  /** A reader of `blob` obtains exactly these two bit streams. */
  ghost predicate Carries(blob: seq<byte>, left: seq<bool>, right: seq<bool>) {
    && ReadDsf(blob).Some?
    && ReadDsf(blob).value.channels == 2
    && ReadDsf(blob).value.sampleCount == |left| == |right|
    && ChannelBits(ReadDsf(blob).value, 0) == Some(left)
    && ChannelBits(ReadDsf(blob).value, 1) == Some(right)
  }

  lemma UnpackPadded(mono: seq<byte>, n: nat)
    requires n <= 8 * |mono|
    ensures UnpackBits(Padded(mono), n) == UnpackBits(mono, n)
  {
    forall i | 0 <= i < n
      ensures BitAt(Padded(mono), i) == BitAt(mono, i)
    {
    }
  }

  lemma CarriesModulated(n: nat, left: seq<byte>, right: seq<byte>, payload: seq<byte>)
    requires n <= 8 * |left| && n <= 8 * |right|
    requires |payload| % 8192 == 0 && |payload| + 92 < U64_LIMIT && n < U64_LIMIT
    requires Deinterleave(payload, 0) == Padded(left) && Deinterleave(payload, 1) == Padded(right)
    ensures BuildDsf(n, payload).Some?
    ensures Carries(BuildDsf(n, payload).value, UnpackBits(left, n), UnpackBits(right, n))
  {
    ReadOfBuild(n, payload);
    UnpackPadded(left, n);
    UnpackPadded(right, n);
  }

  /** The constant-level stimulus: refused exactly for a level outside the open interval
      (-1, 1) or a size that does not fit the container's fields; otherwise both channels
      read back as the modulated bits. */
  method DsfDcBlob(sampleCount: nat, level: real) returns (blob: Option<seq<byte>>)
    ensures blob.Some? <==> -1.0 < level < 1.0 && 8 * sampleCount < U64_LIMIT
    ensures blob.Some? ==> Carries(blob.value, DcBits(level, 8 * sampleCount), DcBits(level, 8 * sampleCount))
  {
    if !(-1.0 < level < 1.0) {
      return None;
    }
    var n := sampleCount * 8;
    var mono := Modulate(Constant(level, n));
    assert |mono| == sampleCount;
    var payload := DsfBlockPayload(mono);
    blob := BuildDsf(n, payload);
    ReadOfBuild(n, payload);
    if blob.Some? {
      CarriesModulated(n, mono, mono, payload);
    }
  }

  /** Two modulated channels of `n` levels each, one container. */
  method DsfStereoBlob(left: seq<real>, right: seq<real>) returns (blob: Option<seq<byte>>)
    requires |left| == |right|
    ensures blob.Some? ==> Carries(blob.value, Bits(left), Bits(right))
    ensures |left| < 0x1000_0000_0000_0000 ==> blob.Some?
  {
    var l := Modulate(left);
    var r := Modulate(right);
    var payload := DsfStereoPayload(l, r);
    if payload.None? {
      return None;
    }
    blob := BuildDsf(|left|, payload.value);
    ReadOfBuild(|left|, payload.value);
    if blob.Some? {
      CarriesModulated(|left|, l, r, payload.value);
    }
  }
}
