/** RecordBatch as the object it is: encoding caches the compressed records and drives two encoders;
    decoding drives a cursor. */
module RecordBatches {
  import opened Wire
  import opened Encoding
  import opened TwoPass
  import opened Decoding
  import opened RecordCodec
  import opened BatchCodec

  // ----------------------------------------------------------------- the calls of an encoding

  ghost predicate OwnFields(fs: seq<PushField>) {
    && (forall i :: 0 <= i < |fs| ==> fs[i].kind == VarintLength)
    && (forall i, j :: 0 <= i < j < |fs| ==> fs[i] != fs[j])
  }

  /** recordsArray.encode: one record after the other, each with its own length field. */
  function RecordsCalls(rs: seq<Record>, fs: seq<PushField>): seq<Call>
    requires |rs| == |fs|
  {
    if rs == [] then [] else [Group(fs[0], Puts(RecordPrims(rs[0])))] + RecordsCalls(rs[1..], fs[1..])
  }

  lemma {:induction false} RecordsCallsEncoded(rs: seq<Record>, fs: seq<PushField>, crc: Crc)
    requires |rs| == |fs| && OwnFields(fs)
    ensures var calls := RecordsCalls(rs, fs);
            && Encoded(calls, crc) == RecordsBytes(rs) && Distinct(calls)
            && FieldsOf(calls) == (set f | f in fs)
  {
    if rs != [] {
      var calls, more := RecordsCalls(rs, fs), RecordsCalls(rs[1..], fs[1..]);
      PutsEncoded(RecordPrims(rs[0]), crc);
      RecordsCallsEncoded(rs[1..], fs[1..], crc);
      hide RecordPrims, Puts, WrittenAll, PutVarint;
      assert calls[1..] == more;
      assert fs[0] !in fs[1..];
      assert (set f | f in fs) == {fs[0]} + set f | f in fs[1..];
    }
  }

  lemma BatchCallsEncoded(b: Batch, first: int, max: int, data: Bytes, length: PushField, sum: PushField, crc: Crc)
    requires length.kind == Length32 && sum.kind == Crc32 && length != sum
    ensures var calls := BatchCalls(b, first, max, data, length, sum);
            && Encoded(calls, crc) == BytesWith(b, first, max, data, crc) && Distinct(calls) && FieldsOf(calls) == {length, sum}
  {
    var ps := MetaPrims(b, first, max, data);
    var body := [Group(sum, Puts(ps))];
    var inner := [Put(Int32(b.leaderEpoch)), Put(Int8(b.version))] + body;
    PutsEncoded(ps, crc);
    hide MetaPrims, WrittenAll, Puts, PutInt, PutUint;
    var meta := MetaBytes(b, first, max, data);
    assert Encoded(body, crc) == PutUint(4, crc(meta)) + meta && Distinct(body) && FieldsOf(body) == {sum} by {
      assert body[1..] == [];
      assert Encoded([], crc) == [] && PutUint(4, crc(meta)) + meta + [] == PutUint(4, crc(meta)) + meta;
    }
    InnerEncoded(b, body, meta, crc);
    FrameEncoded(b, length, inner, Inner(b, meta, crc), crc);
    assert inner == [Put(Int32(b.leaderEpoch)), Put(Int8(b.version)), Group(sum, Puts(ps))];
    assert BatchCalls(b, first, max, data, length, sum) == [Put(Int64(b.firstOffset)), Group(length, inner)];
  }

  lemma InnerEncoded(b: Batch, body: seq<Call>, meta: Bytes, crc: Crc)
    requires Encoded(body, crc) == PutUint(4, crc(meta)) + meta && Distinct(body)
    ensures var inner := [Put(Int32(b.leaderEpoch)), Put(Int8(b.version))] + body;
            Encoded(inner, crc) == Inner(b, meta, crc) && Distinct(inner) && FieldsOf(inner) == FieldsOf(body)
  {
    var p, q := Put(Int32(b.leaderEpoch)), Put(Int8(b.version));
    var inner := [p, q] + body;
    assert inner[1..] == [q] + body && ([q] + body)[1..] == body;
    hide PutInt, PutUint;
    assert Encoded([q] + body, crc) == PutInt(1, b.version) + Encoded(body, crc);
  }

  lemma FrameEncoded(b: Batch, length: PushField, inner: seq<Call>, s: Bytes, crc: Crc)
    requires length.kind == Length32 && Encoded(inner, crc) == s && Distinct(inner) && length !in FieldsOf(inner)
    ensures var calls := [Put(Int64(b.firstOffset)), Group(length, inner)];
            Encoded(calls, crc) == Framed(b, s) && Distinct(calls) && FieldsOf(calls) == {length} + FieldsOf(inner)
  {
    var g := [Group(length, inner)];
    var calls := [Put(Int64(b.firstOffset))] + g;
    assert calls[1..] == g && g[1..] == [];
    hide PutInt;
    assert Encoded([], crc) == [] && Distinct([]) && FieldsOf([]) == {};
    assert Encoded(g, crc) == PutInt(4, |s|) + s;
    assert [Put(Int64(b.firstOffset)), Group(length, inner)] == calls;
  }

  /** Of a batch, only the number of records and the size of their encoding can be too large. */
  lemma BatchCallsSizable(b: Batch, first: int, max: int, data: Bytes, length: PushField, sum: PushField, crc: Crc)
    ensures Sizable(BatchCalls(b, first, max, data, length, sum)) <==> |b.records| <= MAX_INT32 && |data| <= MAX_INT32
  {
    var ps := MetaPrims(b, first, max, data);
    PutsEncoded(ps, crc);
    assert (forall i :: 0 <= i < |ps| ==> Sized(ps[i]).Val?) <==> Sized(ps[7]).Val? && Sized(ps[8]).Val?;
    hide Puts, ComputeAttributes;
    var g := [Group(sum, Puts(ps))];
    var inner := [Put(Int32(b.leaderEpoch)), Put(Int8(b.version)), Group(sum, Puts(ps))];
    assert inner[1..][1..] == g && g[1..] == [];
    var calls := BatchCalls(b, first, max, data, length, sum);
    assert calls[1..] == [Group(length, inner)] && calls[1..][1..] == [];
    assert Sizable(g) <==> Sizable(Puts(ps));
    assert Sizable(inner[1..]) <==> Sizable(g);
    assert Sizable(inner) <==> Sizable(inner[1..]);
    assert Sizable(calls[1..]) <==> Sizable(inner);
    assert Sizable(calls) <==> Sizable(calls[1..]);
  }

  // ------------------------------------------------------------------------------ the object

  class RecordBatch {
    var batch: Batch
    /** The length fields embedded in the records. */
    const lengths: seq<PushField>
    var compressedRecords: Nullable<Bytes>

    constructor (batch: Batch, lengths: seq<PushField>)
      ensures this.batch == batch && this.lengths == lengths && compressedRecords == Null
    {
      this.batch, this.lengths, compressedRecords := batch, lengths, Null;
    }

    ghost predicate Valid()
      reads this
    {
      |lengths| == |batch.records| && OwnFields(lengths)
    }

    /** Encodes the records by themselves and keeps them compressed. */
    method EncodeRecords(comp: Compressor, crc: Crc, max: nat) returns (ok: bool)
      requires Valid()
      modifies this`compressedRecords, set f | f in lengths
      ensures ok <==> Sizable(RecordsCalls(batch.records, lengths)) && |RecordsBytes(batch.records)| <= max
      ensures ok ==> compressedRecords == Val(comp.deflate(batch.codec % 8, RecordsBytes(batch.records)))
      ensures !ok ==> compressedRecords == old(compressedRecords)
    {
      hide Sizable, Encoded, FieldsOf, Distinct, RecordsCalls, RecordsBytes, OwnFields, LengthsSet;
      RecordsCallsEncoded(batch.records, lengths, crc);
      var raw := TwoPass.Encode(RecordsCalls(batch.records, lengths), crc, max, set f | f in lengths);
      if raw.Null? { return false; }
      compressedRecords := Val(comp.deflate(batch.codec % 8, raw.value));
      ok := true;
    }

    /** Encodes the batch. When it succeeds with nothing cached before, the bytes are those of the
        batch. */
    method Encode(comp: Compressor, crc: Crc, max: nat) returns (r: Nullable<Bytes>)
      requires Valid()
      modifies this`compressedRecords, set f | f in lengths
      ensures r.Val? ==> batch.version == 2 && HasTimes(batch) && compressedRecords.Val? && |batch.records| <= MAX_INT32
      ensures r.Val? ==> r.value == BytesWith(batch, Millis(batch.firstTimestamp).value, Millis(batch.maxTimestamp).value, compressedRecords.value, crc)
      ensures r.Val? && old(compressedRecords).Null? ==> r.value == BatchBytes(batch, comp, crc)
      ensures r.Val? ==> |r.value| <= max
      ensures r.Null? ==>
                || batch.version != 2 || !HasTimes(batch) || |batch.records| > MAX_INT32
                || (old(compressedRecords).Null? && !(Sizable(RecordsCalls(batch.records, lengths)) && |RecordsBytes(batch.records)| <= max))
                || (compressedRecords.Val? && |compressedRecords.value| > (if max < MAX_INT32 then max else MAX_INT32) - 12 - RECORD_BATCH_OVERHEAD)
    {
      hide Sizable, Encoded, FieldsOf, Distinct, RecordsCalls, RecordsBytes, OwnFields, LengthsSet, BytesWith, BatchCalls;
      if batch.version != 2 { return Null; }
      var first, last := Millis(batch.firstTimestamp), Millis(batch.maxTimestamp);
      if first.Null? || last.Null? || |batch.records| > MAX_INT32 { return Null; }
      if compressedRecords.Null? {
        var ok := EncodeRecords(comp, crc, max);
        if !ok { return Null; }
      }
      var length := new PushField(Length32, 0);
      var sum := new PushField(Crc32, 0);
      BatchCallsEncoded(batch, first.value, last.value, compressedRecords.value, length, sum, crc);
      BatchCallsSizable(batch, first.value, last.value, compressedRecords.value, length, sum, crc);
      OverheadExact(batch, first.value, last.value, compressedRecords.value, crc);
      r := TwoPass.Encode(BatchCalls(batch, first.value, last.value, compressedRecords.value, length, sum), crc, max, {length, sum});
    }
  }

  // -------------------------------------------------------------------------------- decoding

  method DecodeHead(rd: RealDecoder) returns (r: Result<Head>)
    requires rd.Valid()
    modifies rd
    ensures r == HeadAt(old(rd.Remaining())) && rd.Follows(r)
  {
    hide IntAt;
    var firstOffset := rd.GetInt(8);
    if !firstOffset.Ok? { return if firstOffset.Short? then Short else Invalid; }
    var length := rd.GetInt(4);
    if !length.Ok? { return if length.Short? then Short else Invalid; }
    var leaderEpoch := rd.GetInt(4);
    if !leaderEpoch.Ok? { return if leaderEpoch.Short? then Short else Invalid; }
    var version := rd.GetInt(1);
    if !version.Ok? { return if version.Short? then Short else Invalid; }
    if |rd.raw| - rd.off < 4 { rd.off := |rd.raw|; return Short; }
    var sum := GetUint(rd.raw[rd.off..rd.off + 4]);
    assert rd.Remaining()[..4] == rd.raw[rd.off..rd.off + 4] && rd.Remaining()[4..] == rd.raw[rd.off + 4..];
    rd.off := rd.off + 4;
    r := Ok(Head(firstOffset.value, length.value, leaderEpoch.value, version.value, sum), rd.raw[rd.off..]);
  }

  method DecodeMeta(rd: RealDecoder) returns (r: Result<Meta>)
    requires rd.Valid()
    modifies rd
    ensures r == MetaAt(old(rd.Remaining())) && rd.Follows(r)
  {
    hide IntAt, ArrayLengthAt;
    var attributes := rd.GetInt(2);
    if !attributes.Ok? { return if attributes.Short? then Short else Invalid; }
    var lastOffsetDelta := rd.GetInt(4);
    if !lastOffsetDelta.Ok? { return if lastOffsetDelta.Short? then Short else Invalid; }
    var first := rd.GetInt(8);
    if !first.Ok? { return if first.Short? then Short else Invalid; }
    var last := rd.GetInt(8);
    if !last.Ok? { return if last.Short? then Short else Invalid; }
    var producerID := rd.GetInt(8);
    if !producerID.Ok? { return if producerID.Short? then Short else Invalid; }
    var producerEpoch := rd.GetInt(2);
    if !producerEpoch.Ok? { return if producerEpoch.Short? then Short else Invalid; }
    var firstSequence := rd.GetInt(4);
    if !firstSequence.Ok? { return if firstSequence.Short? then Short else Invalid; }
    var count := rd.GetArrayLength();
    if !count.Ok? { return if count.Short? then Short else Invalid; }
    r := Ok(Meta(attributes.value, lastOffsetDelta.value, first.value, last.value, producerID.value, producerEpoch.value,
                 firstSequence.value, count.value), count.rest);
  }

  /** RecordBatch.decode. */
  method DecodeBatch(rd: RealDecoder, comp: Compressor, crc: Crc) returns (r: Result<Decoded>)
    requires rd.Valid()
    modifies rd
    ensures r == BatchAt(old(rd.Remaining()), comp, crc) && rd.Follows(r)
  {
    hide HeadAt, MetaAt, RawAt, BatchOf, RecordsAt;
    var h := DecodeHead(rd);
    if !h.Ok? { return if h.Short? then Short else Invalid; }
    ghost var s1 := rd.Remaining();
    var start := rd.off;
    var m := DecodeMeta(rd);
    if !m.Ok? { return if m.Short? then Short else Invalid; }
    var buffer := rd.GetRawBytes(h.value.length - RECORD_BATCH_OVERHEAD);
    if buffer.Short? { return Ok(Partial(BatchOf(h.value, m.value, [])), []); }
    if buffer.Invalid? { return Invalid; }
    var summed := rd.raw[start..rd.off];
    assert summed == Take(s1, buffer.rest);
    if crc(summed) != h.value.sum { return Invalid; }
    var raw := comp.inflate(m.value.attributes % 8, buffer.value);
    if raw.Null? { return Invalid; }
    var inner := new RealDecoder(raw.value);
    assert inner.Remaining() == raw.value;
    var records := DecodeRecords(inner, if m.value.count < 0 then 0 else m.value.count);
    if records.Short? { return Ok(Partial(BatchOf(h.value, m.value, [])), rd.Remaining()); }
    if records.Invalid? { return Invalid; }
    if inner.off != |inner.raw| { return Invalid; }
    r := Ok(Whole(BatchOf(h.value, m.value, records.value)), rd.Remaining());
  }
}
