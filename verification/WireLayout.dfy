/** Where things are in what is written: every primitive, field, record, batch and legacy message byte
    by byte, without reference to how it is read. */
module WireLayout {
  import opened Wire
  import opened Encoding
  import opened RecordCodec
  import opened BatchCodec
  import opened LegacyCodec

  // ------------------------------------------------------------------------------- primitives

  /** A length of w bytes and then the content; nothing but -1 for null. */
  ghost predicate Prefixed(s: Bytes, w: nat, o: Nullable<Bytes>) {
    if o.Null? then |s| == w && IsInt(s, -1) else |s| == w + |o.value| && IsInt(s[..w], |o.value|) && s[w..] == o.value
  }

  /** A varint with the length and then the content; nothing but -1 for null. */
  ghost predicate VarintPrefixed(s: Bytes, o: Nullable<Bytes>) {
    if o.Null? then IsVarint(s, -1)
    else |s| >= |o.value| && IsVarint(s[..|s| - |o.value|], |o.value|) && s[|s| - |o.value|..] == o.value
  }

  /** An unsigned varint with the length plus one, and then the content. */
  ghost predicate CompactPrefixed(s: Bytes, length: nat, content: Bytes) {
    |s| >= |content| && SevenBits(s[..|s| - |content|], length + 1) && s[|s| - |content|..] == content
  }

  /** Integers of w bytes, one after the other. */
  ghost predicate AreInts(s: Bytes, w: nat, xs: seq<int>)
    requires w > 0
  {
    if xs == [] then s == [] else |s| >= w && IsInt(s[..w], xs[0]) && AreInts(s[w..], w, xs[1..])
  }

  ghost predicate AreTexts(s: Bytes, texts: seq<Bytes>) {
    if texts == [] then s == []
    else |s| >= 2 + |texts[0]| && Prefixed(s[..2 + |texts[0]|], 2, Val(texts[0])) && AreTexts(s[2 + |texts[0]|..], texts[1..])
  }

  ghost predicate AllFit(w: nat, xs: seq<int>) {
    forall i :: 0 <= i < |xs| ==> Fits(w, xs[i])
  }

  /** The primitive's numbers are within their types. */
  ghost predicate InType(p: Prim) {
    match p
    case Int8(x) => Fits(1, x)
    case Int16(x) => Fits(2, x)
    case Int32(x) => Fits(4, x)
    case Int64(x) => Fits(8, x)
    case Float64(bits) => bits < Span(8)
    case Int32Array(xs) => AllFit(4, xs)
    case Int64Array(xs) => AllFit(8, xs)
    case CompactInt32Array(a) => a.Val? ==> AllFit(4, a.value)
    case NullableCompactInt32Array(a) => a.Val? ==> AllFit(4, a.value)
    case _ => true
  }

  ghost predicate Counted(s: Bytes, w: nat, xs: seq<int>)
    requires w > 0
  {
    |s| >= 4 && IsInt(s[..4], |xs|) && AreInts(s[4..], w, xs)
  }

  ghost predicate CompactCounted(s: Bytes, xs: seq<int>) {
    |s| >= 4 * |xs| && SevenBits(s[..|s| - 4 * |xs|], |xs| + 1) && AreInts(s[|s| - 4 * |xs|..], 4, xs)
  }

  /** What the bytes of each primitive are. */
  ghost predicate LaidOut(p: Prim, s: Bytes) {
    match p
    case Int8(x) => |s| == 1 && IsInt(s, x)
    case Int16(x) => |s| == 2 && IsInt(s, x)
    case Int32(x) => |s| == 4 && IsInt(s, x)
    case Int64(x) => |s| == 8 && IsInt(s, x)
    case Float64(bits) => |s| == 8 && BigEndian(s, bits)
    case Bool(b) => s == if b then [1] else [0]
    case VarintNum(x) => IsVarint(s, x)
    case UvarintNum(u) => SevenBits(s, u)
    case ArrayLength(n) => |s| == 4 && IsInt(s, n)
    case CompactArrayLength(n) => SevenBits(s, n + 1)
    case EmptyTaggedFields => s == [0]
    case Raw(r) => s == r
    case ByteField(o) => Prefixed(s, 4, o)
    case VarintBytes(o) => VarintPrefixed(s, o)
    case CompactBytes(r) => CompactPrefixed(s, |r|, r)
    case Text(r) => Prefixed(s, 2, Val(r))
    case NullableText(o) => Prefixed(s, 2, o)
    case CompactText(r) => CompactPrefixed(s, |r|, r)
    case NullableCompactText(o) => if o.Null? then s == [0] else CompactPrefixed(s, |o.value|, o.value)
    case TextArray(texts) => |s| >= 4 && IsInt(s[..4], |texts|) && AreTexts(s[4..], texts)
    case Int32Array(xs) => Counted(s, 4, xs)
    case Int64Array(xs) => Counted(s, 8, xs)
    case CompactInt32Array(a) => a.Val? && CompactCounted(s, a.value)
    case NullableCompactInt32Array(a) => if a.Null? then s == [0] else CompactCounted(s, a.value)
  }

  lemma LengthFits(n: nat)
    ensures n <= MAX_INT16 ==> Fits(2, n)
    ensures n <= MAX_INT32 ==> Fits(4, n)
    ensures Fits(1, -1) && Fits(2, -1) && Fits(4, -1)
  {
    Spans();
  }

  lemma Split(a: Bytes, b: Bytes)
    ensures (a + b)[..|a|] == a && (a + b)[|a|..] == b
  {
  }

  lemma PrefixedWritten(w: nat, o: Nullable<Bytes>)
    requires w > 0 && Fits(w, -1) && (o.Val? ==> Fits(w, |o.value|))
    ensures Prefixed(if o.Null? then PutInt(w, -1) else PutInt(w, |o.value|) + o.value, w, o)
  {
    hide PutInt, IsInt, Fits;
    if o.Null? { PutIntIsInt(w, -1); } else { PutIntIsInt(w, |o.value|); Split(PutInt(w, |o.value|), o.value); }
  }

  lemma VarintPrefixedWritten(o: Nullable<Bytes>)
    ensures VarintPrefixed(if o.Null? then PutVarint(-1) else PutVarint(|o.value|) + o.value, o)
  {
    hide PutVarint, IsVarint;
    if o.Null? { PutVarintIsVarint(-1); } else { PutVarintIsVarint(|o.value|); Split(PutVarint(|o.value|), o.value); }
  }

  lemma CompactPrefixedWritten(r: Bytes)
    ensures CompactPrefixed(PutUvarint(|r| + 1) + r, |r|, r)
  {
    hide PutUvarint, SevenBits;
    PutUvarintSevenBits(|r| + 1);
    Split(PutUvarint(|r| + 1), r);
  }

  lemma {:induction false} IntsWritten(w: nat, xs: seq<int>)
    requires w > 0 && AllFit(w, xs)
    ensures AreInts(PutInts(w, xs), w, xs)
  {
    hide PutInt, IsInt, Fits;
    if xs != [] {
      PutIntIsInt(w, xs[0]);
      IntsWritten(w, xs[1..]);
      Split(PutInt(w, xs[0]), PutInts(w, xs[1..]));
    }
  }

  lemma {:induction false} TextsWritten(texts: seq<Bytes>)
    requires TextSizes(texts).Val?
    ensures AreTexts(PutTexts(texts), texts)
  {
    hide PutInt, Prefixed, Fits;
    if texts != [] {
      var t := texts[0];
      LengthFits(|t|);
      PrefixedWritten(2, Val(t));
      TextsWritten(texts[1..]);
      Split(PutInt(2, |t|) + t, PutTexts(texts[1..]));
    }
  }

  lemma CountedWritten(w: nat, xs: seq<int>)
    requires w > 0 && AllFit(w, xs) && |xs| <= MAX_INT32
    ensures Counted(PutInt(4, |xs|) + PutInts(w, xs), w, xs)
  {
    hide PutInt, PutInts, IsInt, Fits, AreInts;
    LengthFits(|xs|);
    PutIntIsInt(4, |xs|);
    IntsWritten(w, xs);
    Split(PutInt(4, |xs|), PutInts(w, xs));
  }

  lemma CompactCountedWritten(xs: seq<int>)
    requires AllFit(4, xs)
    ensures CompactCounted(PutUvarint(|xs| + 1) + PutInts(4, xs), xs)
  {
    hide PutUvarint, PutInts, SevenBits, Fits, AreInts;
    PutUvarintSevenBits(|xs| + 1);
    IntsWritten(4, xs);
    Split(PutUvarint(|xs| + 1), PutInts(4, xs));
  }

  lemma TextArrayWritten(texts: seq<Bytes>)
    requires |texts| <= MAX_INT32 && TextSizes(texts).Val?
    ensures var s := PutInt(4, |texts|) + PutTexts(texts); |s| >= 4 && IsInt(s[..4], |texts|) && AreTexts(s[4..], texts)
  {
    hide PutInt, PutTexts, IsInt, Fits, AreTexts, TextSizes;
    LengthFits(|texts|);
    PutIntIsInt(4, |texts|);
    TextsWritten(texts);
    Split(PutInt(4, |texts|), PutTexts(texts));
  }

  lemma NumberWritten(p: Prim)
    requires InType(p) && (p.Int8? || p.Int16? || p.Int32? || p.Int64? || p.Float64? || p.Bool? || p.VarintNum? || p.UvarintNum?)
    ensures LaidOut(p, Written(p))
  {
    hide PutInt, PutUint, PutVarint, PutUvarint, IsInt, BigEndian, IsVarint, SevenBits, Fits;
    match p {
      case Int8(x) => PutIntIsInt(1, x);
      case Int16(x) => PutIntIsInt(2, x);
      case Int32(x) => PutIntIsInt(4, x);
      case Int64(x) => PutIntIsInt(8, x);
      case Float64(bits) => PutUintBigEndian(8, bits);
      case VarintNum(x) => PutVarintIsVarint(x);
      case UvarintNum(u) => PutUvarintSevenBits(u);
      case _ =>
    }
  }

  lemma ZeroWritten()
    ensures PutUvarint(0) == [0] && PutInt(1, 0) == [0]
  {
    assert PutUint(0, 0) == [];
  }

  /** Layout of primitives: integers are big-endian in two's complement, varints in groups of seven
      bits, and what has a length begins with it, or with the mark of null, and goes on with its
      content. */
  lemma PrimLayout(p: Prim)
    requires Sized(p).Val? && InType(p)
    ensures LaidOut(p, Written(p))
  {
    ZeroWritten();
    hide PutInt, PutUint, PutVarint, PutUvarint, PutInts, PutTexts, IsInt, BigEndian, IsVarint, SevenBits, Fits, Prefixed, VarintPrefixed,
      CompactPrefixed, Counted, CompactCounted, AreTexts, AreInts, TextSizes, AllFit;
    match p {
      case ArrayLength(n) => LengthFits(n); PutIntIsInt(4, n);
      case CompactArrayLength(n) => PutUvarintSevenBits(n + 1);
      case EmptyTaggedFields =>
      case Raw(r) =>
      case ByteField(o) => LengthFits(if o.Null? then 0 else |o.value|); PrefixedWritten(4, o);
      case VarintBytes(o) => VarintPrefixedWritten(o);
      case CompactBytes(r) => CompactPrefixedWritten(r);
      case Text(r) => LengthFits(|r|); PrefixedWritten(2, Val(r));
      case NullableText(o) => LengthFits(if o.Null? then 0 else |o.value|); PrefixedWritten(2, o);
      case CompactText(r) => CompactPrefixedWritten(r);
      case NullableCompactText(o) => if o.Val? { CompactPrefixedWritten(o.value); }
      case TextArray(texts) => TextArrayWritten(texts);
      case Int32Array(xs) => CountedWritten(4, xs);
      case Int64Array(xs) => CountedWritten(8, xs);
      case CompactInt32Array(a) => if a.Val? { CompactCountedWritten(a.value); }
      case NullableCompactInt32Array(a) => if a.Val? { CompactCountedWritten(a.value); }
      case _ => NumberWritten(p);
    }
  }

  /** Layout of fields: the length, fixed or varint, or the checksum, of exactly what follows. */
  lemma FieldLayout(kind: Kind, body: Bytes, crc: Crc)
    ensures kind == Length32 && |body| <= MAX_INT32 ==> |FieldBytes(kind, body, crc)| == 4 && IsInt(FieldBytes(kind, body, crc), |body|)
    ensures kind == Crc32 ==> |FieldBytes(kind, body, crc)| == 4 && BigEndian(FieldBytes(kind, body, crc), crc(body))
    ensures kind == VarintLength ==> IsVarint(FieldBytes(kind, body, crc), |body|)
  {
    Spans();
    LengthFits(|body|);
    hide PutInt, PutUint, PutVarint, IsInt, BigEndian, IsVarint, Fits, Span;
    if kind == Length32 && |body| <= MAX_INT32 { PutIntIsInt(4, |body|); }
    PutUintBigEndian(4, crc(body));
    PutVarintIsVarint(|body|);
  }

  // ----------------------------------------------------------------------------- fixed positions

  /** The integer at position i, of w bytes. */
  ghost predicate HasInt(s: Bytes, i: nat, w: nat, x: int) {
    w > 0 && i + w <= |s| && IsInt(s[i..i + w], x)
  }

  lemma NextInt(s: Bytes, front: Bytes, w: nat, x: int, rest: Bytes)
    requires w > 0 && Fits(w, x) && s == front + (PutInt(w, x) + rest)
    ensures HasInt(s, |front|, w, x) && s == (front + PutInt(w, x)) + rest && |front + PutInt(w, x)| == |front| + w
  {
    hide PutInt, IsInt, Fits;
    PutIntIsInt(w, x);
    assert s[|front|..|front| + w] == PutInt(w, x);
  }

  lemma NextSum(s: Bytes, front: Bytes, u: nat, rest: Bytes)
    requires u < Span(4) && s == front + (PutUint(4, u) + rest)
    ensures |front| + 4 <= |s| && BigEndian(s[|front|..|front| + 4], u) && s[|front| + 4..] == rest
    ensures s == (front + PutUint(4, u)) + rest && |front + PutUint(4, u)| == |front| + 4
  {
    hide PutUint, BigEndian, Span;
    PutUintBigEndian(4, u);
    assert s[|front|..|front| + 4] == PutUint(4, u);
  }

  /** Milliseconds since 1970, or -1 for the zero time. */
  ghost predicate IsMillis(t: Time, millis: int) {
    if t.Zero? then millis == -1 else 1_000_000 * millis <= t.ns < 1_000_000 * (millis + 1)
  }

  /** The header of a batch, field by field. */
  ghost predicate BatchHeader(b: Batch, s: Bytes, first: int, max: int) {
    && HasInt(s, 0, 8, b.firstOffset) && HasInt(s, 8, 4, |s| - 12) && HasInt(s, 12, 4, b.leaderEpoch) && HasInt(s, 16, 1, b.version)
    && HasInt(s, 23, 4, b.lastOffsetDelta) && HasInt(s, 27, 8, first) && HasInt(s, 35, 8, max)
    && HasInt(s, 43, 8, b.producerID) && HasInt(s, 51, 2, b.producerEpoch) && HasInt(s, 53, 4, b.firstSequence) && HasInt(s, 57, 4, |b.records|)
  }

  /** Codec in bits 0 to 2, timestamp type in bit 3, transactional in bit 4, control in bit 5. */
  function AttributeBits(b: Batch): int {
    b.codec + (if b.logAppendTime then 8 else 0) + (if b.transactional then 16 else 0) + (if b.control then 32 else 0)
  }

  lemma HeadLayout(b: Batch, s: Bytes, meta: Bytes, crc: Crc)
    requires ValidFields(b) && s == Framed(b, Inner(b, meta, crc)) && |Inner(b, meta, crc)| <= MAX_INT32
    ensures |s| == 21 + |meta| && HasInt(s, 0, 8, b.firstOffset) && HasInt(s, 8, 4, |s| - 12) && HasInt(s, 12, 4, b.leaderEpoch) && HasInt(s, 16, 1, b.version)
    ensures BigEndian(s[17..21], crc(meta)) && s[21..] == meta
  {
    Spans();
    LengthFits(|Inner(b, meta, crc)|);
    assert Fits(1, b.version);
    hide PutInt, PutUint, HasInt, Fits, Span, BigEndian;
    var inner := Inner(b, meta, crc);
    var r3 := PutUint(4, crc(meta)) + meta;
    var r2 := PutInt(1, b.version) + r3;
    assert inner == PutInt(4, b.leaderEpoch) + r2;
    assert s == [] + (PutInt(8, b.firstOffset) + (PutInt(4, |inner|) + inner));
    NextInt(s, [], 8, b.firstOffset, PutInt(4, |inner|) + inner);
    var f1 := [] + PutInt(8, b.firstOffset);
    NextInt(s, f1, 4, |inner|, inner);
    var f2 := f1 + PutInt(4, |inner|);
    NextInt(s, f2, 4, b.leaderEpoch, r2);
    var f3 := f2 + PutInt(4, b.leaderEpoch);
    NextInt(s, f3, 1, b.version, r3);
    NextSum(s, f3 + PutInt(1, b.version), crc(meta), meta);
  }

  lemma MetaLayout(a: int, lod: int, first: int, max: int, id: int, epoch: int, seq': int, n: nat, data: Bytes)
    requires Fits(2, a) && Fits(4, lod) && Fits(8, first) && Fits(8, max) && Fits(8, id) && Fits(2, epoch) && Fits(4, seq') && Fits(4, n)
    ensures var s := MetaThen(a, lod, first, max, id, epoch, seq', n, data, []);
            && |s| == 40 + |data| && HasInt(s, 0, 2, a) && HasInt(s, 2, 4, lod) && HasInt(s, 6, 8, first) && HasInt(s, 14, 8, max) && HasInt(s, 22, 8, id)
            && HasInt(s, 30, 2, epoch) && HasInt(s, 32, 4, seq') && HasInt(s, 36, 4, n) && s[40..] == data
  {
    hide PutInt, HasInt, Fits;
    var s := MetaThen(a, lod, first, max, id, epoch, seq', n, data, []);
    assert data + [] == data;
    var r7 := PutInt(4, n) + data;
    var r6 := PutInt(4, seq') + r7;
    var r5 := PutInt(2, epoch) + r6;
    var r4 := PutInt(8, id) + r5;
    var r3 := PutInt(8, max) + r4;
    var r2 := PutInt(8, first) + r3;
    var r1 := PutInt(4, lod) + r2;
    assert s == [] + (PutInt(2, a) + r1);
    NextInt(s, [], 2, a, r1);
    var f1 := [] + PutInt(2, a);
    NextInt(s, f1, 4, lod, r2);
    var f2 := f1 + PutInt(4, lod);
    NextInt(s, f2, 8, first, r3);
    var f3 := f2 + PutInt(8, first);
    NextInt(s, f3, 8, max, r4);
    var f4 := f3 + PutInt(8, max);
    NextInt(s, f4, 8, id, r5);
    var f5 := f4 + PutInt(8, id);
    NextInt(s, f5, 2, epoch, r6);
    var f6 := f5 + PutInt(2, epoch);
    NextInt(s, f6, 4, seq', r7);
    var f7 := f6 + PutInt(4, seq');
    NextInt(s, f7, 4, n, data);
  }

  lemma ShiftInt(s: Bytes, meta: Bytes, i: nat, w: nat, x: int)
    requires |s| == 21 + |meta| && s[21..] == meta && HasInt(meta, i, w, x)
    ensures HasInt(s, 21 + i, w, x)
  {
    assert s[21 + i..21 + i + w] == s[21..][i..i + w];
    hide IsInt;
  }

  lemma MillisIs(t: Time)
    requires ValidTime(t)
    ensures Millis(t).Val? && Fits(8, Millis(t).value) && IsMillis(t, Millis(t).value)
  {
    Spans();
  }

  lemma AttributesAre(b: Batch)
    requires ValidFields(b)
    ensures Fits(2, ComputeAttributes(b)) && ComputeAttributes(b) == AttributeBits(b)
  {
    Spans();
  }

  /** Layout of a batch: every header field at its place, times in milliseconds, attributes bit by bit,
      the length of what follows it, the checksum of all from the attributes on, and then the records,
      compressed. */
  lemma BatchLayout(b: Batch, comp: Compressor, crc: Crc)
    requires ValidBatch(b, comp)
    ensures HasTimes(b)
    ensures var s := BatchBytes(b, comp, crc);
            && |s| >= 61 && (exists first, max :: IsMillis(b.firstTimestamp, first) && IsMillis(b.maxTimestamp, max) && BatchHeader(b, s, first, max))
            && BigEndian(s[17..21], crc(s[21..])) && HasInt(s, 21, 2, AttributeBits(b))
            && s[61..] == comp.deflate(b.codec, RecordsBytes(b.records))
  {
    hide BatchBytes, Framed, Inner, MetaBytes, MetaThen, RecordsBytes, HasInt, Fits, BigEndian, ComputeAttributes, Span, IsMillis, AttributeBits;
    MillisIs(b.firstTimestamp);
    MillisIs(b.maxTimestamp);
    AttributesAre(b);
    var first, max := Millis(b.firstTimestamp).value, Millis(b.maxTimestamp).value;
    var data := comp.deflate(b.codec, RecordsBytes(b.records));
    var meta := MetaBytes(b, first, max, data);
    var s := BatchBytes(b, comp, crc);
    BatchParts(b, comp, crc);
    HeadLayout(b, s, meta, crc);
    MetaFields(b, first, max, data, s, meta);
    assert BatchHeader(b, s, first, max);
  }

  lemma BatchParts(b: Batch, comp: Compressor, crc: Crc)
    requires ValidBatch(b, comp) && HasTimes(b)
    ensures var first, max, data := Millis(b.firstTimestamp).value, Millis(b.maxTimestamp).value, comp.deflate(b.codec, RecordsBytes(b.records));
            var meta := MetaBytes(b, first, max, data);
            BatchBytes(b, comp, crc) == Framed(b, Inner(b, meta, crc)) && |Inner(b, meta, crc)| <= MAX_INT32
  {
    hide Framed, Inner, MetaBytes, RecordsBytes, Millis, ValidTime, ValidRecord, Fits;
    assert b.codec % 8 == b.codec;
    OverheadExact(b, Millis(b.firstTimestamp).value, Millis(b.maxTimestamp).value, comp.deflate(b.codec, RecordsBytes(b.records)), crc);
  }

  lemma MetaFields(b: Batch, first: int, max: int, data: Bytes, s: Bytes, meta: Bytes)
    requires ValidFields(b) && Fits(8, first) && Fits(8, max) && meta == MetaBytes(b, first, max, data) && |s| == 21 + |meta| && s[21..] == meta
    ensures |s| >= 61 && HasInt(s, 21, 2, AttributeBits(b)) && HasInt(s, 23, 4, b.lastOffsetDelta) && HasInt(s, 27, 8, first) && HasInt(s, 35, 8, max)
    ensures HasInt(s, 43, 8, b.producerID) && HasInt(s, 51, 2, b.producerEpoch) && HasInt(s, 53, 4, b.firstSequence) && HasInt(s, 57, 4, |b.records|)
    ensures s[61..] == data
  {
    hide MetaBytes, MetaThen, HasInt, Fits, ComputeAttributes, AttributeBits, ValidTime;
    AttributesAre(b);
    LengthFits(|b.records|);
    MetaShape(b, first, max, data, []);
    assert meta + [] == meta;
    MetaLayout(ComputeAttributes(b), b.lastOffsetDelta, first, max, b.producerID, b.producerEpoch, b.firstSequence, |b.records|, data);
    ShiftInt(s, meta, 0, 2, ComputeAttributes(b));
    ShiftInt(s, meta, 2, 4, b.lastOffsetDelta);
    ShiftInt(s, meta, 6, 8, first);
    ShiftInt(s, meta, 14, 8, max);
    ShiftInt(s, meta, 22, 8, b.producerID);
    ShiftInt(s, meta, 30, 2, b.producerEpoch);
    ShiftInt(s, meta, 32, 4, b.firstSequence);
    ShiftInt(s, meta, 36, 4, |b.records|);
    assert s[61..] == s[21..][40..];
  }

  // ------------------------------------------------------------------------------------ records

  function HeadersWritten(hs: seq<Header>): Bytes {
    if hs == [] then [] else Written(VarintBytes(hs[0].key)) + Written(VarintBytes(hs[0].value)) + HeadersWritten(hs[1..])
  }

  lemma {:induction false} HeadersAre(hs: seq<Header>)
    ensures WrittenAll(HeaderPrims(hs)) == HeadersWritten(hs)
  {
    hide Written;
    if hs != [] {
      HeadersAre(hs[1..]);
      var more := HeaderPrims(hs[1..]);
      var p, q := VarintBytes(hs[0].key), VarintBytes(hs[0].value);
      assert HeaderPrims(hs) == [p] + ([q] + more);
      WrittenNext(p, [q] + more, []);
      WrittenNext(q, more, []);
      assert WrittenAll([p] + ([q] + more)) + [] == WrittenAll([p] + ([q] + more));
      assert WrittenAll(more) + [] == WrittenAll(more);
    }
  }

  /** A byte of attributes, the time in milliseconds and the offset, both relative to the batch, key,
      value, and the headers after their number. */
  function Body(r: Record, millis: int): Bytes {
    Written(Int8(r.attributes)) + (Written(VarintNum(millis)) + (Written(VarintNum(r.offsetDelta)) + (Written(VarintBytes(r.key))
      + (Written(VarintBytes(r.value)) + (Written(VarintNum(|r.headers|)) + HeadersWritten(r.headers))))))
  }

  lemma BodyIs(r: Record, ms: int)
    requires ms == Quotient(r.timestampDelta, NANOS_PER_MILLI)
    ensures RecordBody(r) == Body(r, ms)
  {
    hide Written, WrittenAll, Quotient, HeadersWritten, HeaderPrims;
    HeadersAre(r.headers);
    var hs := HeaderPrims(r.headers);
    var p5 := [VarintNum(|r.headers|)] + hs;
    var p4 := [VarintBytes(r.value)] + p5;
    var p3 := [VarintBytes(r.key)] + p4;
    var p2 := [VarintNum(r.offsetDelta)] + p3;
    var p1 := [VarintNum(ms)] + p2;
    assert RecordPrims(r) == [Int8(r.attributes)] + p1;
    OneWritten(Int8(r.attributes), p1);
    OneWritten(VarintNum(ms), p2);
    OneWritten(VarintNum(r.offsetDelta), p3);
    OneWritten(VarintBytes(r.key), p4);
    OneWritten(VarintBytes(r.value), p5);
    OneWritten(VarintNum(|r.headers|), hs);
  }

  lemma WholeMillis(ns: int)
    requires ns % NANOS_PER_MILLI == 0
    ensures 1_000_000 * Quotient(ns, NANOS_PER_MILLI) == ns
  {
  }

  /** Layout of a record: the length of its body as a varint, and then the body, times in milliseconds. */
  lemma RecordLayout(r: Record)
    requires ValidRecord(r)
    ensures RecordBytes(r) == Written(VarintNum(|RecordBody(r)|)) + RecordBody(r)
    ensures exists millis :: 1_000_000 * millis == r.timestampDelta && RecordBody(r) == Body(r, millis)
  {
    hide Written, RecordBody, Body, Quotient, PutVarint, Fits, SmallBytes;
    var ms := Quotient(r.timestampDelta, NANOS_PER_MILLI);
    WholeMillis(r.timestampDelta);
    BodyIs(r, ms);
    WrittenNums(0, |RecordBody(r)|);
  }

  lemma OneWritten(p: Prim, ps: seq<Prim>)
    ensures WrittenAll([p] + ps) == Written(p) + WrittenAll(ps)
  {
    WrittenNext(p, ps, []);
    hide Written, WrittenAll;
    assert WrittenAll([p] + ps) + [] == WrittenAll([p] + ps) && WrittenAll(ps) + [] == WrittenAll(ps);
  }

  // ----------------------------------------------------------------------------- legacy messages

  lemma MessageStart(b: MessageBlock, s: Bytes, body: Bytes, crc: Crc)
    requires Fits(8, b.offset) && |body| <= MAX_INT32 - 4
    requires s == PutInt(8, b.offset) + (PutInt(4, 4 + |body|) + (PutUint(4, crc(body)) + body))
    ensures |s| == 16 + |body| && HasInt(s, 0, 8, b.offset) && HasInt(s, 8, 4, |s| - 12) && BigEndian(s[12..16], crc(body)) && s[16..] == body
  {
    Spans();
    LengthFits(4 + |body|);
    hide PutInt, PutUint, HasInt, Fits, Span, BigEndian;
    var r2 := PutUint(4, crc(body)) + body;
    var r1 := PutInt(4, 4 + |body|) + r2;
    assert s == [] + (PutInt(8, b.offset) + r1);
    NextInt(s, [], 8, b.offset, r1);
    var f1 := [] + PutInt(8, b.offset);
    NextInt(s, f1, 4, 4 + |body|, r2);
    NextSum(s, f1 + PutInt(4, 4 + |body|), crc(body), body);
  }

  lemma BodyStart(version: int, attributes: int, millis: int, rest: Bytes)
    requires 0 <= version <= 1 && 0 <= attributes < 16 && Fits(8, millis)
    ensures var s := PutInt(1, version) + (PutInt(1, attributes) + ((if version >= 1 then PutInt(8, millis) else []) + rest));
            && HasInt(s, 0, 1, version) && HasInt(s, 1, 1, attributes) && (version >= 1 ==> HasInt(s, 2, 8, millis))
            && |s| >= (if version >= 1 then 10 else 2) && s[if version >= 1 then 10 else 2..] == rest
  {
    Spans();
    assert Fits(1, version) && Fits(1, attributes);
    hide PutInt, HasInt, Fits, Span;
    var r2 := (if version >= 1 then PutInt(8, millis) else []) + rest;
    var r1 := PutInt(1, attributes) + r2;
    var s := PutInt(1, version) + r1;
    assert s == [] + s;
    NextInt(s, [], 1, version, r1);
    var f1 := [] + PutInt(1, version);
    NextInt(s, f1, 1, attributes, r2);
    var f2 := f1 + PutInt(1, attributes);
    if version >= 1 { NextInt(s, f2, 8, millis, rest); } else { assert r2 == rest; }
  }

  lemma LaterInt(s: Bytes, body: Bytes, i: nat, w: nat, x: int)
    requires |s| == 16 + |body| && s[16..] == body && HasInt(body, i, w, x)
    ensures HasInt(s, 16 + i, w, x)
  {
    assert s[16 + i..16 + i + w] == s[16..][i..i + w];
    hide IsInt;
  }

  lemma MessageParts(b: MessageBlock, crc: Crc)
    requires Millis(b.msg.timestamp).Val? && 0 <= b.msg.codec < 8
    ensures var m, millis := b.msg, Millis(b.msg.timestamp).value;
            var body := MessageBody(m, millis);
            && BlockBytes(b, crc) == PutInt(8, b.offset) + (PutInt(4, 4 + |body|) + (PutUint(4, crc(body)) + body))
            && body == PutInt(1, m.version) + (PutInt(1, m.codec + if m.logAppendTime then 8 else 0)
                       + ((if m.version >= 1 then PutInt(8, millis) else []) + (Written(ByteField(m.key)) + Written(ByteField(m.value)))))
  {
    hide PutInt, PutUint, Written, Millis;
    assert AttributesOf(b.msg) == b.msg.codec + if b.msg.logAppendTime then 8 else 0;
  }

  /** Layout of a legacy message: offset, length of what follows it, checksum of all from the version on,
      version, attributes, from version 1 on the time in milliseconds, key and value. */
  lemma MessageLayout(b: MessageBlock, crc: Crc)
    requires ValidWrapper(b)
    ensures Millis(b.msg.timestamp).Val?
    ensures var s := BlockBytes(b, crc);
            var at := if b.msg.version >= 1 then 26 else 18;
            && |s| >= at && HasInt(s, 0, 8, b.offset) && HasInt(s, 8, 4, |s| - 12) && BigEndian(s[12..16], crc(s[16..]))
            && HasInt(s, 16, 1, b.msg.version) && HasInt(s, 17, 1, b.msg.codec + if b.msg.logAppendTime then 8 else 0)
            && (b.msg.version >= 1 ==> exists millis :: IsMillis(b.msg.timestamp, millis) && HasInt(s, 18, 8, millis))
            && s[at..] == Written(ByteField(b.msg.key)) + Written(ByteField(b.msg.value))
  {
    hide PutInt, PutUint, HasInt, Fits, BigEndian, Written, IsMillis, Millis, BlockBytes, MessageBody, AttributesOf, Span;
    MillisIs(b.msg.timestamp);
    var m, millis := b.msg, Millis(b.msg.timestamp).value;
    var attributes := m.codec + if m.logAppendTime then 8 else 0;
    var rest := Written(ByteField(m.key)) + Written(ByteField(m.value));
    var body, s := MessageBody(m, millis), BlockBytes(b, crc);
    MessageParts(b, crc);
    MessageStart(b, s, body, crc);
    BodyStart(m.version, attributes, millis, rest);
    LaterInt(s, body, 0, 1, m.version);
    LaterInt(s, body, 1, 1, attributes);
    if m.version >= 1 { LaterInt(s, body, 2, 8, millis); }
    var at := if m.version >= 1 then 26 else 18;
    assert s[at..] == s[16..][at - 16..];
  }
}
