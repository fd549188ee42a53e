/** Records of a v2 batch: how they are written and read. */
module RecordCodec {
  import opened Wire
  import opened Encoding
  import opened Decoding

  const NANOS_PER_MILLI: int := 1_000_000

  datatype Header = Header(key: Nullable<Bytes>, value: Nullable<Bytes>)

  /** `timestampDelta` is in nanoseconds. */
  datatype Record = Record(attributes: int, timestampDelta: int, offsetDelta: int, key: Nullable<Bytes>, value: Nullable<Bytes>, headers: seq<Header>)

  /** Division that rounds towards zero. */
  function Quotient(x: int, d: int): int
    requires d > 0
  {
    if x >= 0 then x / d else -((-x) / d)
  }

  /** The 64-bit result of an int64 operation. */
  function Wrap64(x: int): int {
    (x + 0x8000_0000_0000_0000) % 0x1_0000_0000_0000_0000 - 0x8000_0000_0000_0000
  }

  // ----------------------------------------------------------------------------- writing

  function HeaderPrims(hs: seq<Header>): seq<Prim> {
    if hs == [] then [] else [VarintBytes(hs[0].key), VarintBytes(hs[0].value)] + HeaderPrims(hs[1..])
  }

  function RecordPrims(r: Record): seq<Prim> {
    [Int8(r.attributes), VarintNum(Quotient(r.timestampDelta, NANOS_PER_MILLI)), VarintNum(r.offsetDelta),
     VarintBytes(r.key), VarintBytes(r.value), VarintNum(|r.headers|)] + HeaderPrims(r.headers)
  }

  function Puts(ps: seq<Prim>): seq<Call> {
    if ps == [] then [] else [Put(ps[0])] + Puts(ps[1..])
  }

  function WrittenAll(ps: seq<Prim>): Bytes {
    if ps == [] then [] else Written(ps[0]) + WrittenAll(ps[1..])
  }

  function RecordBody(r: Record): Bytes {
    WrittenAll(RecordPrims(r))
  }

  function RecordBytes(r: Record): Bytes {
    PutVarint(|RecordBody(r)|) + RecordBody(r)
  }

  function RecordsBytes(rs: seq<Record>): Bytes {
    if rs == [] then [] else RecordBytes(rs[0]) + RecordsBytes(rs[1..])
  }

  lemma {:induction false} PutsEncoded(ps: seq<Prim>, crc: Crc)
    ensures Encoded(Puts(ps), crc) == WrittenAll(ps) && FieldsOf(Puts(ps)) == {} && Distinct(Puts(ps))
    ensures Sizable(Puts(ps)) <==> forall i :: 0 <= i < |ps| ==> Sized(ps[i]).Val?
  {
    hide Written, Sized;
    if ps != [] {
      assert Puts(ps)[1..] == Puts(ps[1..]);
      PutsEncoded(ps[1..], crc);
    }
  }

  // ------------------------------------------------------------------------------ reading

  function HeaderAt(s: Bytes): (r: Result<Header>)
    ensures r.Ok? ==> |r.rest| <= |s|
  {
    match VarintBytesAt(s)
    case Short => Short
    case Invalid => Invalid
    case Ok(key, s1) =>
      match VarintBytesAt(s1)
      case Short => Short
      case Invalid => Invalid
      case Ok(value, s2) => Ok(Header(key, value), s2)
  }

  function HeadersAt(n: int, s: Bytes): (r: Result<seq<Header>>)
    ensures r.Ok? ==> |r.rest| <= |s|
    decreases n
  {
    if n <= 0 then Ok([], s)
    else match HeaderAt(s)
      case Short => Short
      case Invalid => Invalid
      case Ok(h, s1) =>
        match HeadersAt(n - 1, s1)
        case Short => Short
        case Invalid => Invalid
        case Ok(hs, s2) => Ok([h] + hs, s2)
  }

  /** The headers at the end of a record: their number, then each of them. */
  function CountedHeadersAt(s: Bytes): (r: Result<seq<Header>>)
    ensures r.Ok? ==> |r.rest| <= |s|
  {
    match VarintAt(s)
    case Short => Short
    case Invalid => Invalid
    case Ok(n, s1) => HeadersAt(n, s1)
  }

  function KeyValueAt(s: Bytes): (r: Result<(Nullable<Bytes>, Nullable<Bytes>)>)
    ensures r.Ok? ==> |r.rest| <= |s|
  {
    match HeaderAt(s)
    case Short => Short
    case Invalid => Invalid
    case Ok(h, s1) => Ok((h.key, h.value), s1)
  }

  /** Attributes, timestamp delta in milliseconds, offset delta. */
  function DeltasAt(s: Bytes): (r: Result<(int, int, int)>)
    ensures r.Ok? ==> |r.rest| <= |s|
  {
    match IntAt(1, s)
    case Short => Short
    case Invalid => Invalid
    case Ok(attributes, s1) =>
      match VarintAt(s1)
      case Short => Short
      case Invalid => Invalid
      case Ok(millis, s2) =>
        match VarintAt(s2)
        case Short => Short
        case Invalid => Invalid
        case Ok(offset, s3) => Ok((attributes, millis, offset), s3)
  }

  function BodyAt(s: Bytes): (r: Result<Record>)
    ensures r.Ok? ==> |r.rest| <= |s|
  {
    match DeltasAt(s)
    case Short => Short
    case Invalid => Invalid
    case Ok(d, s1) =>
      match KeyValueAt(s1)
      case Short => Short
      case Invalid => Invalid
      case Ok(kv, s2) =>
        match CountedHeadersAt(s2)
        case Short => Short
        case Invalid => Invalid
        case Ok(hs, s3) => Ok(Record(d.0, Wrap64(d.1 * NANOS_PER_MILLI), d.2, kv.0, kv.1, hs), s3)
  }

  /** A record: its length, its body, and the check that the length is that of the body. */
  function RecordAt(s: Bytes): (r: Result<Record>)
    ensures r.Ok? ==> |r.rest| <= |s|
  {
    match VarintAt(s)
    case Short => Short
    case Invalid => Invalid
    case Ok(length, s1) =>
      match BodyAt(s1)
      case Short => Short
      case Invalid => Invalid
      case Ok(r, s2) => if |s| - |s2| - |PutVarint(length)| != length then Invalid else Ok(r, s2)
  }

  function RecordsAt(n: nat, s: Bytes): (r: Result<seq<Record>>)
    ensures r.Ok? ==> |r.rest| <= |s|
    decreases n
  {
    if n == 0 then Ok([], s)
    else match RecordAt(s)
      case Short => Short
      case Invalid => Invalid
      case Ok(r, s1) =>
        match RecordsAt(n - 1, s1)
        case Short => Short
        case Invalid => Invalid
        case Ok(rs, s2) => Ok([r] + rs, s2)
  }

  // -------------------------------------------------------------- reading with a cursor

  method DecodeHeader(rd: RealDecoder) returns (r: Result<Header>)
    requires rd.Valid()
    modifies rd
    ensures r == HeaderAt(old(rd.Remaining())) && rd.Follows(r)
  {
    var key := rd.GetVarintBytes();
    if key.Short? { return Short; }
    if key.Invalid? { return Invalid; }
    var value := rd.GetVarintBytes();
    if value.Short? { return Short; }
    if value.Invalid? { return Invalid; }
    r := Ok(Header(key.value, value.value), value.rest);
  }

  function Prepend<T>(xs: seq<T>, r: Result<seq<T>>): Result<seq<T>> {
    match r case Short => Short case Invalid => Invalid case Ok(ys, rest) => Ok(xs + ys, rest)
  }

  lemma PrependOne<T>(xs: seq<T>, x: T, r: Result<seq<T>>)
    ensures Prepend(xs, Prepend([x], r)) == Prepend(xs + [x], r)
  {
    if r.Ok? { assert xs + ([x] + r.value) == xs + [x] + r.value; }
  }

  lemma PrependNone<T>(r: Result<seq<T>>)
    ensures Prepend([], r) == r
  {
    if r.Ok? { assert [] + r.value == r.value; }
  }

  lemma HeadersStep(n: int, s: Bytes)
    ensures HeadersAt(n, s) ==
              if n <= 0 then Ok([], s)
              else match HeaderAt(s)
                case Short => Short
                case Invalid => Invalid
                case Ok(h, s1) => Prepend([h], HeadersAt(n - 1, s1))
  {
    hide HeaderAt;
  }

  method DecodeHeaders(rd: RealDecoder, n: int) returns (r: Result<seq<Header>>)
    requires rd.Valid()
    modifies rd
    ensures r == HeadersAt(n, old(rd.Remaining())) && rd.Follows(r)
  {
    hide HeaderAt, HeadersAt;
    var hs: seq<Header> := [];
    var m := if n < 0 then 0 else n;
    ghost var all := HeadersAt(m, rd.Remaining());
    PrependNone(all);
    HeadersStep(n, rd.Remaining());
    HeadersStep(m, rd.Remaining());
    for i := 0 to m
      invariant rd.Valid()
      invariant all == Prepend(hs, HeadersAt(m - i, rd.Remaining()))
    {
      HeadersStep(m - i, rd.Remaining());
      var h := DecodeHeader(rd);
      if h.Short? { return Short; }
      if h.Invalid? { return Invalid; }
      PrependOne(hs, h.value, HeadersAt(m - i - 1, h.rest));
      hs := hs + [h.value];
    }
    HeadersStep(0, rd.Remaining());
    r := Ok(hs, rd.Remaining());
    assert hs + [] == hs;
  }

  method DecodeDeltas(rd: RealDecoder) returns (r: Result<(int, int, int)>)
    requires rd.Valid()
    modifies rd
    ensures r == DeltasAt(old(rd.Remaining())) && rd.Follows(r)
  {
    hide IntAt, VarintAt;
    var attributes := rd.GetInt(1);
    if attributes.Short? { return Short; }
    if attributes.Invalid? { return Invalid; }
    var millis := rd.GetVarint();
    if millis.Short? { return Short; }
    if millis.Invalid? { return Invalid; }
    var offset := rd.GetVarint();
    if offset.Short? { return Short; }
    if offset.Invalid? { return Invalid; }
    r := Ok((attributes.value, millis.value, offset.value), offset.rest);
  }

  method DecodeBody(rd: RealDecoder) returns (r: Result<Record>)
    requires rd.Valid()
    modifies rd
    ensures r == BodyAt(old(rd.Remaining())) && rd.Follows(r)
  {
    hide DeltasAt, HeaderAt, HeadersAt, VarintAt;
    var d := DecodeDeltas(rd);
    if d.Short? { return Short; }
    if d.Invalid? { return Invalid; }
    var kv := DecodeHeader(rd);
    if kv.Short? { return Short; }
    if kv.Invalid? { return Invalid; }
    var n := rd.GetVarint();
    if n.Short? { return Short; }
    if n.Invalid? { return Invalid; }
    var hs := DecodeHeaders(rd, n.value);
    if hs.Short? { return Short; }
    if hs.Invalid? { return Invalid; }
    r := Ok(Record(d.value.0, Wrap64(d.value.1 * NANOS_PER_MILLI), d.value.2, kv.value.key, kv.value.value, hs.value), hs.rest);
  }

  /** Record.decode: pushes the length field, reads the body, and pops, which checks the length. */
  method DecodeRecord(rd: RealDecoder) returns (r: Result<Record>)
    requires rd.Valid()
    modifies rd
    ensures r == RecordAt(old(rd.Remaining())) && rd.Follows(r)
  {
    hide VarintAt, BodyAt, PutVarint;
    var startOffset := rd.off;
    var length := rd.GetVarint();
    if length.Short? { return Short; }
    if length.Invalid? { return Invalid; }
    var body := DecodeBody(rd);
    if body.Short? { return Short; }
    if body.Invalid? { return Invalid; }
    if rd.off - startOffset - |PutVarint(length.value)| != length.value { return Invalid; }
    r := body;
  }

  method DecodeRecords(rd: RealDecoder, n: nat) returns (r: Result<seq<Record>>)
    requires rd.Valid()
    modifies rd
    ensures r == RecordsAt(n, old(rd.Remaining())) && rd.Follows(r)
  {
    hide RecordAt;
    var rs: seq<Record> := [];
    ghost var all := RecordsAt(n, rd.Remaining());
    PrependNone(all);
    for i := 0 to n
      invariant rd.Valid()
      invariant all == Prepend(rs, RecordsAt(n - i, rd.Remaining()))
    {
      ghost var s := rd.Remaining();
      var rec := DecodeRecord(rd);
      if rec.Short? { return Short; }
      if rec.Invalid? { return Invalid; }
      assert RecordsAt(n - i, s) == Prepend([rec.value], RecordsAt(n - i - 1, rec.rest));
      PrependOne(rs, rec.value, RecordsAt(n - i - 1, rec.rest));
      rs := rs + [rec.value];
    }
    r := Ok(rs, rd.Remaining());
    assert rs + [] == rs;
  }

  // -------------------------------------------------------------------------- round trip

  predicate SmallBytes(o: Nullable<Bytes>) {
    o.Val? ==> |o.value| <= MAX_INT32
  }

  /** Field values as their Go types can hold them, times in whole milliseconds, and sizes as the
      sizing pass accepts them. */
  predicate ValidRecord(r: Record) {
    && Fits(1, r.attributes) && Fits(8, r.timestampDelta) && r.timestampDelta % NANOS_PER_MILLI == 0 && Fits(8, r.offsetDelta)
    && SmallBytes(r.key) && SmallBytes(r.value)
    && |r.headers| <= MAX_INT32 && (forall i :: 0 <= i < |r.headers| ==> SmallBytes(r.headers[i].key) && SmallBytes(r.headers[i].value))
    && |RecordBody(r)| <= MAX_INT32
  }

  lemma WrittenNext(p: Prim, ps: seq<Prim>, tail: Bytes)
    ensures WrittenAll([p] + ps) + tail == Written(p) + (WrittenAll(ps) + tail)
  {
    assert ([p] + ps)[1..] == ps;
    hide Written;
  }

  lemma {:induction false} HeadersRead(hs: seq<Header>, tail: Bytes)
    requires forall i :: 0 <= i < |hs| ==> SmallBytes(hs[i].key) && SmallBytes(hs[i].value)
    ensures HeadersAt(|hs|, WrittenAll(HeaderPrims(hs)) + tail) == Ok(hs, tail)
  {
    hide Written, WrittenAll, VarintBytesAt;
    if hs == [] {
      assert WrittenAll(HeaderPrims(hs)) + tail == tail by { NothingWritten(); }
    } else {
      var h, more := hs[0], HeaderPrims(hs[1..]);
      assert HeaderPrims(hs) == [VarintBytes(h.key)] + ([VarintBytes(h.value)] + more);
      WrittenNext(VarintBytes(h.key), [VarintBytes(h.value)] + more, tail);
      WrittenNext(VarintBytes(h.value), more, tail);
      VarintBytesRead(h.key, WrittenAll([VarintBytes(h.value)] + more) + tail);
      VarintBytesRead(h.value, WrittenAll(more) + tail);
      HeadersRead(hs[1..], tail);
      assert HeaderAt(WrittenAll(HeaderPrims(hs)) + tail) == Ok(h, WrittenAll(more) + tail);
      assert hs == [h] + hs[1..];
    }
  }

  lemma NothingWritten()
    ensures WrittenAll([]) == []
  {
  }

  lemma MillisRoundTrip(ns: int)
    requires Fits(8, ns) && ns % NANOS_PER_MILLI == 0
    ensures var ms := Quotient(ns, NANOS_PER_MILLI); Fits(8, ms) && Wrap64(ms * NANOS_PER_MILLI) == ns
  {
    Spans();
  }

  lemma BodyRead(r: Record, tail: Bytes)
    requires ValidRecord(r)
    ensures BodyAt(RecordBody(r) + tail) == Ok(r, tail)
  {
    var hs := HeaderPrims(r.headers);
    var ms := Quotient(r.timestampDelta, NANOS_PER_MILLI);
    MillisRoundTrip(r.timestampDelta);
    SmallFits(|r.headers|);
    hide Fits, Quotient, Wrap64;
    hide Written, WrittenAll, VarintBytesAt, VarintAt, IntAt, PutVarint, HeadersAt;
    var p5 := [VarintNum(|r.headers|)] + hs;
    var p4 := [VarintBytes(r.value)] + p5;
    var p3 := [VarintBytes(r.key)] + p4;
    var p2 := [VarintNum(r.offsetDelta)] + p3;
    var p1 := [VarintNum(ms)] + p2;
    assert RecordPrims(r) == [Int8(r.attributes)] + p1;
    WrittenNext(Int8(r.attributes), p1, tail);
    WrittenNext(VarintNum(ms), p2, tail);
    WrittenNext(VarintNum(r.offsetDelta), p3, tail);
    WrittenNext(VarintBytes(r.key), p4, tail);
    WrittenNext(VarintBytes(r.value), p5, tail);
    WrittenNext(VarintNum(|r.headers|), hs, tail);
    WrittenNums(r.attributes, ms);
    WrittenNums(r.attributes, r.offsetDelta);
    WrittenNums(r.attributes, |r.headers|);
    IntRead(1, r.attributes, WrittenAll(p1) + tail);
    VarintRead(ms, WrittenAll(p2) + tail);
    VarintRead(r.offsetDelta, WrittenAll(p3) + tail);
    VarintBytesRead(r.key, WrittenAll(p4) + tail);
    VarintBytesRead(r.value, WrittenAll(p5) + tail);
    VarintRead(|r.headers|, WrittenAll(hs) + tail);
    HeadersRead(r.headers, tail);
  }

  lemma WrittenNums(a: int, x: int)
    ensures Written(Int8(a)) == PutInt(1, a) && Written(VarintNum(x)) == PutVarint(x)
  {
  }

  /** Reading a written record gives it back, nil and empty byte fields told apart, and stops exactly
      behind it. */
  lemma RecordRead(r: Record, tail: Bytes)
    requires ValidRecord(r)
    ensures RecordAt(RecordBytes(r) + tail) == Ok(r, tail)
  {
    hide RecordBody, VarintAt, BodyAt, PutVarint, Fits;
    var body := RecordBody(r);
    SmallFits(|body|);
    BodyRead(r, tail);
    VarintRead(|body|, body + tail);
    assert RecordBytes(r) + tail == PutVarint(|body|) + (body + tail);
  }

  lemma {:induction false} RecordsRead(rs: seq<Record>, tail: Bytes)
    requires forall i :: 0 <= i < |rs| ==> ValidRecord(rs[i])
    ensures RecordsAt(|rs|, RecordsBytes(rs) + tail) == Ok(rs, tail)
  {
    hide RecordBytes, ValidRecord, RecordAt;
    if rs == [] {
      assert RecordsBytes(rs) + tail == tail;
    } else {
      RecordRead(rs[0], RecordsBytes(rs[1..]) + tail);
      RecordsRead(rs[1..], tail);
      assert RecordsBytes(rs) + tail == RecordBytes(rs[0]) + (RecordsBytes(rs[1..]) + tail);
      assert rs == [rs[0]] + rs[1..];
    }
  }
}
