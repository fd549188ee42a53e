/** v2 record batches: how they are written and read. */
module BatchCodec {
  import opened Wire
  import opened Encoding
  import opened Decoding
  import opened RecordCodec

  /** A point in time: the zero time, or nanoseconds since 1970. */
  datatype Time = Zero | Unix(ns: int)

  datatype Batch = Batch(
    firstOffset: int, leaderEpoch: int, version: int, codec: int, control: bool, logAppendTime: bool,
    lastOffsetDelta: int, firstTimestamp: Time, maxTimestamp: Time, producerID: int, producerEpoch: int,
    firstSequence: int, transactional: bool, records: seq<Record>)

  /** Compression, as a pair of functions; none of it is modelled. */
  datatype Compressor = Compressor(deflate: (int, Bytes) -> Bytes, inflate: (int, Bytes) -> Nullable<Bytes>)

  const RECORD_BATCH_OVERHEAD: int := 49

  // ----------------------------------------------------------------------------- writing

  /** The wire form of a time; a time before 1970 other than the zero time has none. */
  function Millis(t: Time): Nullable<int> {
    if t.Zero? then Val(-1) else if t.ns >= 0 then Val(t.ns / NANOS_PER_MILLI) else Null
  }

  function Bit(b: bool): int {
    if b then 1 else 0
  }

  function ComputeAttributes(b: Batch): int {
    b.codec % 8 + 8 * Bit(b.logAppendTime) + 16 * Bit(b.transactional) + 32 * Bit(b.control)
  }

  /** What is written after the checksum; `data` are the records, compressed. */
  function MetaPrims(b: Batch, first: int, max: int, data: Bytes): seq<Prim> {
    [Int16(ComputeAttributes(b)), Int32(b.lastOffsetDelta), Int64(first), Int64(max), Int64(b.producerID),
     Int16(b.producerEpoch), Int32(b.firstSequence), ArrayLength(|b.records|), Raw(data)]
  }

  /** The calls RecordBatch.encode makes, with its length and checksum fields. */
  function BatchCalls(b: Batch, first: int, max: int, data: Bytes, length: PushField, sum: PushField): seq<Call> {
    [Put(Int64(b.firstOffset)),
     Group(length, [Put(Int32(b.leaderEpoch)), Put(Int8(b.version)), Group(sum, Puts(MetaPrims(b, first, max, data)))])]
  }

  function MetaBytes(b: Batch, first: int, max: int, data: Bytes): Bytes {
    WrittenAll(MetaPrims(b, first, max, data))
  }

  /** What follows the length field. */
  function Inner(b: Batch, meta: Bytes, crc: Crc): Bytes {
    PutInt(4, b.leaderEpoch) + (PutInt(1, b.version) + (PutUint(4, crc(meta)) + meta))
  }

  function Framed(b: Batch, inner: Bytes): Bytes {
    PutInt(8, b.firstOffset) + (PutInt(4, |inner|) + inner)
  }

  function BytesWith(b: Batch, first: int, max: int, data: Bytes, crc: Crc): Bytes {
    Framed(b, Inner(b, MetaBytes(b, first, max, data), crc))
  }

  predicate HasTimes(b: Batch) {
    Millis(b.firstTimestamp).Val? && Millis(b.maxTimestamp).Val?
  }

  /** The encoded batch. */
  function BatchBytes(b: Batch, comp: Compressor, crc: Crc): Bytes
    requires HasTimes(b)
  {
    BytesWith(b, Millis(b.firstTimestamp).value, Millis(b.maxTimestamp).value, comp.deflate(b.codec % 8, RecordsBytes(b.records)), crc)
  }

  /** The bytes after the checksum, one field after the other, with whatever follows them. */
  function MetaThen(attributes: int, lastOffsetDelta: int, first: int, max: int, producerID: int, producerEpoch: int,
                    firstSequence: int, n: nat, data: Bytes, tail: Bytes): Bytes {
    PutInt(2, attributes) + (PutInt(4, lastOffsetDelta) + (PutInt(8, first) + (PutInt(8, max) + (PutInt(8, producerID)
      + (PutInt(2, producerEpoch) + (PutInt(4, firstSequence) + (PutInt(4, n) + (data + tail))))))))
  }

  lemma WrittenFields(x: int, n: nat, data: Bytes)
    ensures Written(Int16(x)) == PutInt(2, x) && Written(Int32(x)) == PutInt(4, x) && Written(Int64(x)) == PutInt(8, x)
    ensures Written(ArrayLength(n)) == PutInt(4, n) && Written(Raw(data)) == data
  {
  }

  lemma MetaShape(b: Batch, first: int, max: int, data: Bytes, tail: Bytes)
    ensures MetaBytes(b, first, max, data) + tail ==
              MetaThen(ComputeAttributes(b), b.lastOffsetDelta, first, max, b.producerID, b.producerEpoch, b.firstSequence, |b.records|, data, tail)
  {
    var a := ComputeAttributes(b);
    WrittenFields(a, |b.records|, data);
    WrittenFields(b.lastOffsetDelta, |b.records|, data);
    WrittenFields(first, |b.records|, data);
    WrittenFields(max, |b.records|, data);
    WrittenFields(b.producerID, |b.records|, data);
    WrittenFields(b.producerEpoch, |b.records|, data);
    WrittenFields(b.firstSequence, |b.records|, data);
    NothingWritten();
    hide Written, WrittenAll, PutInt, ComputeAttributes;
    var p8 := [Raw(data)] + [];
    var p7 := [ArrayLength(|b.records|)] + p8;
    var p6 := [Int32(b.firstSequence)] + p7;
    var p5 := [Int16(b.producerEpoch)] + p6;
    var p4 := [Int64(b.producerID)] + p5;
    var p3 := [Int64(max)] + p4;
    var p2 := [Int64(first)] + p3;
    var p1 := [Int32(b.lastOffsetDelta)] + p2;
    assert MetaPrims(b, first, max, data) == [Int16(a)] + p1;
    WrittenNext(Int16(a), p1, tail);
    WrittenNext(Int32(b.lastOffsetDelta), p2, tail);
    WrittenNext(Int64(first), p3, tail);
    WrittenNext(Int64(max), p4, tail);
    WrittenNext(Int64(b.producerID), p5, tail);
    WrittenNext(Int16(b.producerEpoch), p6, tail);
    WrittenNext(Int32(b.firstSequence), p7, tail);
    WrittenNext(ArrayLength(|b.records|), p8, tail);
    WrittenNext(Raw(data), [], tail);
    assert [] + tail == tail;
  }

  /** The overhead constant is exactly what the header adds to the records. */
  lemma OverheadExact(b: Batch, first: int, max: int, data: Bytes, crc: Crc)
    ensures |MetaBytes(b, first, max, data)| == 40 + |data|
    ensures |Inner(b, MetaBytes(b, first, max, data), crc)| == RECORD_BATCH_OVERHEAD + |data|
    ensures |BytesWith(b, first, max, data, crc)| == 12 + RECORD_BATCH_OVERHEAD + |data|
  {
    MetaShape(b, first, max, data, []);
    hide PutInt, PutUint, ComputeAttributes, MetaBytes;
  }

  // ------------------------------------------------------------------------------ reading

  /** A batch that was there as a whole, or only its header. */
  datatype Decoded = Whole(batch: Batch) | Partial(batch: Batch)

  /** First offset, length, leader epoch, version, and the checksum field. */
  datatype Head = Head(firstOffset: int, length: int, leaderEpoch: int, version: int, sum: nat)

  datatype Meta = Meta(attributes: int, lastOffsetDelta: int, first: int, max: int, producerID: int, producerEpoch: int, firstSequence: int, count: int)

  function UintAt(w: nat, s: Bytes): Result<nat> {
    if |s| < w then Short else Ok(GetUint(s[..w]), s[w..])
  }

  function HeadAt(s: Bytes): (r: Result<Head>)
    ensures r.Ok? ==> |r.rest| < |s|
  {
    match IntAt(8, s) case Short => Short case Invalid => Invalid case Ok(firstOffset, s1) =>
    match IntAt(4, s1) case Short => Short case Invalid => Invalid case Ok(length, s2) =>
    match IntAt(4, s2) case Short => Short case Invalid => Invalid case Ok(leaderEpoch, s3) =>
    match IntAt(1, s3) case Short => Short case Invalid => Invalid case Ok(version, s4) =>
    match UintAt(4, s4) case Short => Short case Invalid => Invalid case Ok(sum, s5) =>
    Ok(Head(firstOffset, length, leaderEpoch, version, sum), s5)
  }

  function MetaAt(s: Bytes): (r: Result<Meta>)
    ensures r.Ok? ==> |r.rest| <= |s|
  {
    match IntAt(2, s) case Short => Short case Invalid => Invalid case Ok(attributes, s1) =>
    match IntAt(4, s1) case Short => Short case Invalid => Invalid case Ok(lastOffsetDelta, s2) =>
    match IntAt(8, s2) case Short => Short case Invalid => Invalid case Ok(first, s3) =>
    match IntAt(8, s3) case Short => Short case Invalid => Invalid case Ok(max, s4) =>
    match IntAt(8, s4) case Short => Short case Invalid => Invalid case Ok(producerID, s5) =>
    match IntAt(2, s5) case Short => Short case Invalid => Invalid case Ok(producerEpoch, s6) =>
    match IntAt(4, s6) case Short => Short case Invalid => Invalid case Ok(firstSequence, s7) =>
    match ArrayLengthAt(s7) case Short => Short case Invalid => Invalid case Ok(count, s8) =>
    Ok(Meta(attributes, lastOffsetDelta, first, max, producerID, producerEpoch, firstSequence, count), s8)
  }

  function TimeOf(millis: int): Time {
    if millis >= 0 then Unix(millis * NANOS_PER_MILLI) else Zero
  }

  function BatchOf(h: Head, m: Meta, records: seq<Record>): Batch {
    Batch(h.firstOffset, h.leaderEpoch, h.version, m.attributes % 8, (m.attributes / 32) % 2 == 1, (m.attributes / 8) % 2 == 1,
          m.lastOffsetDelta, TimeOf(m.first), TimeOf(m.max), m.producerID, m.producerEpoch, m.firstSequence,
          (m.attributes / 16) % 2 == 1, records)
  }

  /** The records, after the checksum over `summed` has been compared with the one in the header. */
  function RecordsIn(h: Head, m: Meta, buffer: Bytes, rest: Bytes, summed: Bytes, comp: Compressor, crc: Crc): (r: Result<Decoded>)
    ensures r.Ok? ==> r.rest == rest
  {
    if crc(summed) != h.sum then Invalid
    else match comp.inflate(m.attributes % 8, buffer)
      case Null => Invalid
      case Val(raw) =>
        match RecordsAt(if m.count < 0 then 0 else m.count, raw)
        case Short => Ok(Partial(BatchOf(h, m, [])), rest)
        case Invalid => Invalid
        case Ok(records, left) => if left != [] then Invalid else Ok(Whole(BatchOf(h, m, records)), rest)
  }

  /** RecordBatch.decode. A batch whose records do not fit in the bytes left is partial, and takes
      all of them. */
  function BatchAt(s: Bytes, comp: Compressor, crc: Crc): (r: Result<Decoded>)
    ensures r.Ok? ==> |r.rest| < |s|
  {
    match HeadAt(s) case Short => Short case Invalid => Invalid case Ok(h, s1) =>
    match MetaAt(s1) case Short => Short case Invalid => Invalid case Ok(m, s2) =>
    match RawAt(h.length - RECORD_BATCH_OVERHEAD, s2)
    case Invalid => Invalid
    case Short => Ok(Partial(BatchOf(h, m, [])), [])
    case Ok(buffer, s3) => RecordsIn(h, m, buffer, s3, Take(s1, s3), comp, crc)
  }

  /** The bytes between two points of a buffer, given what is left at each. */
  function Take(from: Bytes, to: Bytes): Bytes {
    if |to| <= |from| then from[..|from| - |to|] else []
  }

  // --------------------------------------------------------------------------- round trip

  /** Decompression undoes compression. */
  ghost predicate Inverse(comp: Compressor, codec: int) {
    forall s :: comp.inflate(codec, comp.deflate(codec, s)) == Val(s)
  }

  /** A time in whole milliseconds. */
  predicate ValidTime(t: Time) {
    t.Unix? ==> t.ns >= 0 && Fits(8, t.ns) && t.ns % NANOS_PER_MILLI == 0
  }

  /** Field values as their Go types can hold them; times in whole milliseconds; at most as many
      records as a decoder accepts; records as they can be encoded. */
  predicate ValidFields(b: Batch) {
    && Fits(8, b.firstOffset) && Fits(4, b.leaderEpoch) && b.version == 2 && 0 <= b.codec < 8 && Fits(4, b.lastOffsetDelta)
    && ValidTime(b.firstTimestamp) && ValidTime(b.maxTimestamp)
    && Fits(8, b.producerID) && Fits(2, b.producerEpoch) && Fits(4, b.firstSequence)
    && |b.records| <= MAX_ARRAY_LENGTH
  }

  ghost predicate ValidBatch(b: Batch, comp: Compressor) {
    && ValidFields(b)
    && (forall i :: 0 <= i < |b.records| ==> ValidRecord(b.records[i]))
    && |comp.deflate(b.codec % 8, RecordsBytes(b.records))| <= MAX_INT32 - RECORD_BATCH_OVERHEAD
  }

  lemma TimeRoundTrip(t: Time)
    requires ValidTime(t)
    ensures Millis(t).Val? && Fits(8, Millis(t).value) && TimeOf(Millis(t).value) == t
  {
    Spans();
  }

  lemma AttributesRoundTrip(b: Batch)
    requires 0 <= b.codec < 8
    ensures var a := ComputeAttributes(b);
            && Fits(2, a) && a % 8 == b.codec
            && ((a / 8) % 2 == 1 <==> b.logAppendTime) && ((a / 16) % 2 == 1 <==> b.transactional) && ((a / 32) % 2 == 1 <==> b.control)
  {
    Spans();
  }

  lemma UintRead(w: nat, u: nat, rest: Bytes)
    requires u < Span(w)
    ensures UintAt(w, PutUint(w, u) + rest) == Ok(u, rest)
  {
    UintRoundTrip(w, u);
    assert (PutUint(w, u) + rest)[..w] == PutUint(w, u) && (PutUint(w, u) + rest)[w..] == rest;
  }

  lemma Regroup(a: Bytes, b: Bytes, c: Bytes, d: Bytes)
    ensures a + (b + c) + d == a + (b + (c + d)) && a + b + c == a + (b + c)
  {
  }

  lemma HeadRead(b: Batch, meta: Bytes, tail: Bytes, crc: Crc)
    requires Fits(8, b.firstOffset) && Fits(4, b.leaderEpoch) && Fits(1, b.version) && |Inner(b, meta, crc)| <= MAX_INT32
    ensures HeadAt(Framed(b, Inner(b, meta, crc)) + tail) ==
              Ok(Head(b.firstOffset, |Inner(b, meta, crc)|, b.leaderEpoch, b.version, crc(meta)), meta + tail)
  {
    hide PutInt, PutUint, IntAt, UintAt, Fits, Span;
    Spans();
    var inner := Inner(b, meta, crc);
    SmallFits(|inner|);
    var s4 := PutUint(4, crc(meta)) + (meta + tail);
    var s3 := PutInt(1, b.version) + s4;
    var s2 := PutInt(4, b.leaderEpoch) + s3;
    var s1 := PutInt(4, |inner|) + s2;
    Regroup(PutInt(4, b.leaderEpoch), PutInt(1, b.version), PutUint(4, crc(meta)) + meta, tail);
    Regroup(PutUint(4, crc(meta)), meta, tail, []);
    Regroup(PutInt(8, b.firstOffset), PutInt(4, |inner|), inner, tail);
    hide Inner, Framed;
    IntRead(8, b.firstOffset, s1);
    IntRead(4, |inner|, s2);
    IntRead(4, b.leaderEpoch, s3);
    IntRead(1, b.version, s4);
    UintRead(4, crc(meta), meta + tail);
  }

  lemma ArrayLengthRead(n: nat, rest: Bytes)
    requires n <= MAX_ARRAY_LENGTH
    ensures ArrayLengthAt(PutInt(4, n) + rest) == if n <= |rest| then Ok(n, rest) else Short
  {
    SmallFits(n);
    IntRoundTrip(4, n);
    assert (PutInt(4, n) + rest)[..4] == PutInt(4, n) && (PutInt(4, n) + rest)[4..] == rest;
  }

  /** The header fields come back, unless more records are announced than there are bytes left. */
  lemma MetaRead(a: int, lod: int, first: int, max: int, id: int, epoch: int, seq': int, n: nat, data: Bytes, tail: Bytes)
    requires Fits(2, a) && Fits(4, lod) && Fits(8, first) && Fits(8, max) && Fits(8, id) && Fits(2, epoch) && Fits(4, seq') && n <= MAX_ARRAY_LENGTH
    ensures MetaAt(MetaThen(a, lod, first, max, id, epoch, seq', n, data, tail)) ==
              if n <= |data| + |tail| then Ok(Meta(a, lod, first, max, id, epoch, seq', n), data + tail) else Short
  {
    hide PutInt, IntAt, ArrayLengthAt, Fits;
    var s7 := PutInt(4, n) + (data + tail);
    var s6 := PutInt(4, seq') + s7;
    var s5 := PutInt(2, epoch) + s6;
    var s4 := PutInt(8, id) + s5;
    var s3 := PutInt(8, max) + s4;
    var s2 := PutInt(8, first) + s3;
    var s1 := PutInt(4, lod) + s2;
    IntRead(2, a, s1);
    IntRead(4, lod, s2);
    IntRead(8, first, s3);
    IntRead(8, max, s4);
    IntRead(8, id, s5);
    IntRead(2, epoch, s6);
    IntRead(4, seq', s7);
    ArrayLengthRead(n, data + tail);
  }

  lemma RecordsInRead(h: Head, m: Meta, records: seq<Record>, data: Bytes, rest: Bytes, meta: Bytes, comp: Compressor, crc: Crc)
    requires h.sum == crc(meta) && m.count == |records| && comp.inflate(m.attributes % 8, data) == Val(RecordsBytes(records))
    requires forall i :: 0 <= i < |records| ==> ValidRecord(records[i])
    ensures RecordsIn(h, m, data, rest, meta, comp, crc) == Ok(Whole(BatchOf(h, m, records)), rest)
  {
    RecordsRead(records, []);
    hide RecordsAt, ValidRecord, RecordsBytes, BatchOf;
    assert RecordsBytes(records) + [] == RecordsBytes(records);
  }

  lemma BatchComesBack(b: Batch, first: int, max: int, length: int, sum: nat)
    requires ValidFields(b) && first == Millis(b.firstTimestamp).value && max == Millis(b.maxTimestamp).value
    ensures BatchOf(Head(b.firstOffset, length, b.leaderEpoch, b.version, sum),
                    Meta(ComputeAttributes(b), b.lastOffsetDelta, first, max, b.producerID, b.producerEpoch, b.firstSequence, |b.records|),
                    b.records) == b
  {
    AttributesRoundTrip(b);
    TimeRoundTrip(b.firstTimestamp);
    TimeRoundTrip(b.maxTimestamp);
    hide ComputeAttributes, Millis, TimeOf, Fits, ValidTime;
  }

  /** Batch round trip: an encoded batch is read back as it was, and what follows it is left, exactly
      when the records are not more than the bytes that follow the header; otherwise the batch is
      taken to be cut off. */
  lemma BatchRoundTrip(b: Batch, tail: Bytes, comp: Compressor, crc: Crc)
    requires ValidBatch(b, comp) && Inverse(comp, b.codec)
    ensures HasTimes(b)
    ensures BatchAt(BatchBytes(b, comp, crc) + tail, comp, crc) ==
              if |b.records| <= |comp.deflate(b.codec, RecordsBytes(b.records))| + |tail| then Ok(Whole(b), tail) else Short
  {
    hide BatchAt, HeadAt, MetaAt, MetaThen, MetaBytes, Framed, Inner, BatchOf, RecordsBytes, ComputeAttributes, ValidTime, ValidRecord, TimeOf;
    TimeRoundTrip(b.firstTimestamp);
    TimeRoundTrip(b.maxTimestamp);
    AttributesRoundTrip(b);
    Spans();
    var first, max := Millis(b.firstTimestamp).value, Millis(b.maxTimestamp).value;
    var data := comp.deflate(b.codec, RecordsBytes(b.records));
    assert b.codec % 8 == b.codec;
    var meta := MetaBytes(b, first, max, data);
    OverheadExact(b, first, max, data, crc);
    assert Fits(1, b.version);
    assert BatchBytes(b, comp, crc) == Framed(b, Inner(b, meta, crc));
    assert comp.inflate(b.codec, data) == Val(RecordsBytes(b.records));
    BatchComesBack(b, first, max, |Inner(b, meta, crc)|, crc(meta));
    HeadRead(b, meta, tail, crc);
    MetaShape(b, first, max, data, tail);
    MetaRead(ComputeAttributes(b), b.lastOffsetDelta, first, max, b.producerID, b.producerEpoch, b.firstSequence, |b.records|, data, tail);
    BatchReadRest(b, first, max, data, meta, tail, comp, crc);
  }

  lemma {:induction false} RecordsTakeRoom(rs: seq<Record>)
    ensures |RecordsBytes(rs)| >= |rs|
  {
    hide PutVarint, RecordBody;
    if rs != [] { RecordsTakeRoom(rs[1..]); }
  }

  /** Without compression a batch always comes back. */
  lemma PlainBatchRoundTrip(b: Batch, tail: Bytes, comp: Compressor, crc: Crc)
    requires ValidBatch(b, comp) && Inverse(comp, b.codec) && comp.deflate(b.codec, RecordsBytes(b.records)) == RecordsBytes(b.records)
    ensures HasTimes(b) && BatchAt(BatchBytes(b, comp, crc) + tail, comp, crc) == Ok(Whole(b), tail)
  {
    hide ValidBatch, BatchAt, BatchBytes, RecordsBytes, HasTimes;
    BatchRoundTrip(b, tail, comp, crc);
    RecordsTakeRoom(b.records);
  }

  /** A compressor for the data `known`: that becomes nothing, and all other data one byte longer. */
  function Squeeze(known: Bytes): Compressor {
    Compressor((c: int, s: Bytes) => if s == known then [] else [0] + s, (c: int, d: Bytes) => if d == [] then Val(known) else Val(d[1..]))
  }

  lemma SqueezeInverse(known: Bytes, codec: int)
    ensures Inverse(Squeeze(known), codec)
  {
    forall s ensures Squeeze(known).inflate(codec, Squeeze(known).deflate(codec, s)) == Val(s) {
      if s != known { assert ([0] + s)[1..] == s; }
    }
  }

  /** A batch of records that compress well, with nothing behind it, does not come back: more records
      than bytes are left, and it is taken to be cut off. */
  lemma SqueezedIsCutOff(b: Batch, crc: Crc)
    requires ValidFields(b) && b.records != [] && forall i :: 0 <= i < |b.records| ==> ValidRecord(b.records[i])
    ensures var comp := Squeeze(RecordsBytes(b.records));
            && ValidBatch(b, comp) && Inverse(comp, b.codec) && HasTimes(b)
            && BatchAt(BatchBytes(b, comp, crc) + [], comp, crc) == Short
  {
    hide ValidFields, ValidRecord, BatchAt, BatchBytes, RecordsBytes, HasTimes;
    var comp := Squeeze(RecordsBytes(b.records));
    SqueezeInverse(RecordsBytes(b.records), b.codec);
    BatchRoundTrip(b, [], comp, crc);
  }

  const ONE_RECORD: Batch :=
    Batch(0, 0, 2, 1, false, false, 0, Zero, Zero, 0, 0, 0, false, [Record(0, 0, 0, Null, Null, [])])

  lemma OneRecordIsValid()
    ensures ValidFields(ONE_RECORD) && ValidRecord(ONE_RECORD.records[0])
  {
    Spans();
    var ps := RecordPrims(ONE_RECORD.records[0]);
    assert ps == [Int8(0), VarintNum(0), VarintNum(0), VarintBytes(Null), VarintBytes(Null), VarintNum(0)];
  }

  lemma OneRecordIsCutOff(crc: Crc)
    ensures var b, comp := ONE_RECORD, Squeeze(RecordsBytes(ONE_RECORD.records));
            && ValidBatch(b, comp) && Inverse(comp, b.codec) && HasTimes(b)
            && BatchAt(BatchBytes(b, comp, crc) + [], comp, crc) == Short
  {
    hide ValidBatch, Inverse, ValidFields, ValidRecord, BatchAt, BatchBytes, RecordsBytes, HasTimes;
    OneRecordIsValid();
    SqueezedIsCutOff(ONE_RECORD, crc);
  }

  lemma BatchReadRest(b: Batch, first: int, max: int, data: Bytes, meta: Bytes, tail: Bytes, comp: Compressor, crc: Crc)
    requires forall i :: 0 <= i < |b.records| ==> ValidRecord(b.records[i])
    requires comp.inflate(ComputeAttributes(b) % 8, data) == Val(RecordsBytes(b.records))
    requires var h := Head(b.firstOffset, RECORD_BATCH_OVERHEAD + |data|, b.leaderEpoch, b.version, crc(meta));
             var m := Meta(ComputeAttributes(b), b.lastOffsetDelta, first, max, b.producerID, b.producerEpoch, b.firstSequence, |b.records|);
             && HeadAt(Framed(b, Inner(b, meta, crc)) + tail) == Ok(h, meta + tail)
             && MetaAt(meta + tail) == (if |b.records| <= |data| + |tail| then Ok(m, data + tail) else Short)
             && BatchOf(h, m, b.records) == b
    ensures BatchAt(Framed(b, Inner(b, meta, crc)) + tail, comp, crc) ==
              if |b.records| <= |data| + |tail| then Ok(Whole(b), tail) else Short
  {
    hide HeadAt, MetaAt, ComputeAttributes, BatchOf, RecordsIn, RawAt, ValidRecord, RecordsBytes;
    RawRead(data, tail);
    var h := Head(b.firstOffset, RECORD_BATCH_OVERHEAD + |data|, b.leaderEpoch, b.version, crc(meta));
    var m := Meta(ComputeAttributes(b), b.lastOffsetDelta, first, max, b.producerID, b.producerEpoch, b.firstSequence, |b.records|);
    assert Take(meta + tail, tail) == meta;
    RecordsInRead(h, m, b.records, data, tail, meta, comp, crc);
  }
}
