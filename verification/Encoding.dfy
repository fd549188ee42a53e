/** What an encoder asks for: primitives, and fields that hold the length or checksum of what is
    written between their push and pop. */
module Encoding {
  import opened Wire

  datatype Nullable<+T> = Null | Val(value: T)

  type Crc = Bytes -> Word32

  type Word32 = x: nat | x < 0x1_0000_0000

  const MAX_INT16: nat := 0x7fff
  const MAX_INT32: nat := 0x7fff_ffff

  // ------------------------------------------------------------------------- primitives

  datatype Prim =
    | Int8(x: int) | Int16(x: int) | Int32(x: int) | Int64(x: int) | Float64(bits: nat) | Bool(b: bool)
    | VarintNum(x: int) | UvarintNum(u: nat)
    | ArrayLength(n: nat) | CompactArrayLength(n: nat) | EmptyTaggedFields
    | Raw(s: Bytes) | ByteField(o: Nullable<Bytes>) | VarintBytes(o: Nullable<Bytes>) | CompactBytes(s: Bytes)
    | Text(s: Bytes) | NullableText(o: Nullable<Bytes>) | CompactText(s: Bytes) | NullableCompactText(o: Nullable<Bytes>)
    | TextArray(texts: seq<Bytes>) | Int32Array(xs: seq<int>) | Int64Array(xs: seq<int>)
    | CompactInt32Array(a: Nullable<seq<int>>) | NullableCompactInt32Array(a: Nullable<seq<int>>)

  function PutInts(w: nat, xs: seq<int>): (s: Bytes)
    requires w > 0
    ensures |s| == w * |xs|
  {
    if xs == [] then [] else PutInt(w, xs[0]) + PutInts(w, xs[1..])
  }

  function PutTexts(texts: seq<Bytes>): Bytes {
    if texts == [] then [] else PutInt(2, |texts[0]|) + texts[0] + PutTexts(texts[1..])
  }

  /** What the writing pass puts into the buffer. */
  function Written(p: Prim): Bytes {
    match p
    case Int8(x) => PutInt(1, x)
    case Int16(x) => PutInt(2, x)
    case Int32(x) => PutInt(4, x)
    case Int64(x) => PutInt(8, x)
    case Float64(bits) => PutUint(8, bits)
    case Bool(b) => if b then [1] else [0]
    case VarintNum(x) => PutVarint(x)
    case UvarintNum(u) => PutUvarint(u)
    case ArrayLength(n) => PutInt(4, n)
    case CompactArrayLength(n) => PutUvarint(n + 1)
    case EmptyTaggedFields => PutUvarint(0)
    case Raw(s) => s
    case ByteField(o) => if o.Null? then PutInt(4, -1) else PutInt(4, |o.value|) + o.value
    case VarintBytes(o) => if o.Null? then PutVarint(-1) else PutVarint(|o.value|) + o.value
    case CompactBytes(s) => PutUvarint(|s| + 1) + s
    case Text(s) => PutInt(2, |s|) + s
    case NullableText(o) => if o.Null? then PutInt(2, -1) else PutInt(2, |o.value|) + o.value
    case CompactText(s) => PutUvarint(|s| + 1) + s
    case NullableCompactText(o) => if o.Null? then PutInt(1, 0) else PutUvarint(|o.value| + 1) + o.value
    case TextArray(texts) => PutInt(4, |texts|) + PutTexts(texts)
    case Int32Array(xs) => PutInt(4, |xs|) + PutInts(4, xs)
    case Int64Array(xs) => PutInt(4, |xs|) + PutInts(8, xs)
    case CompactInt32Array(a) => if a.Null? then [] else PutUvarint(|a.value| + 1) + PutInts(4, a.value)
    case NullableCompactInt32Array(a) => if a.Null? then PutUvarint(0) else PutUvarint(|a.value| + 1) + PutInts(4, a.value)
  }

  function RawSize(s: Bytes): Nullable<nat> {
    if |s| > MAX_INT32 then Null else Val(|s|)
  }

  function Plus(n: nat, o: Nullable<nat>): Nullable<nat> {
    if o.Null? then Null else Val(n + o.value)
  }

  function TextSize(s: Bytes): Nullable<nat> {
    if |s| > MAX_INT16 then Null else Val(2 + |s|)
  }

  function TextSizes(texts: seq<Bytes>): Nullable<nat> {
    if texts == [] then Val(0)
    else
      var first := TextSize(texts[0]);
      if first.Null? then Null else Plus(first.value, TextSizes(texts[1..]))
  }

  function ArrayLengthSize(n: nat): Nullable<nat> {
    if n > MAX_INT32 then Null else Val(4)
  }

  /** What the sizing pass adds to the length, or nothing when it refuses. */
  function Sized(p: Prim): Nullable<nat> {
    match p
    case Int8(_) => Val(1)
    case Int16(_) => Val(2)
    case Int32(_) => Val(4)
    case Int64(_) => Val(8)
    case Float64(_) => Val(8)
    case Bool(_) => Val(1)
    case VarintNum(x) => Val(|PutVarint(x)|)
    case UvarintNum(u) => Val(|PutUvarint(u)|)
    case ArrayLength(n) => ArrayLengthSize(n)
    case CompactArrayLength(n) => Val(|PutUvarint(n + 1)|)
    case EmptyTaggedFields => Val(|PutUvarint(0)|)
    case Raw(s) => RawSize(s)
    case ByteField(o) => if o.Null? then Val(4) else Plus(4, RawSize(o.value))
    case VarintBytes(o) => if o.Null? then Val(|PutVarint(-1)|) else Plus(|PutVarint(|o.value|)|, RawSize(o.value))
    case CompactBytes(s) => Plus(|PutUvarint(|s| + 1)|, RawSize(s))
    case Text(s) => TextSize(s)
    case NullableText(o) => if o.Null? then Val(2) else TextSize(o.value)
    case CompactText(s) => Plus(|PutUvarint(|s| + 1)|, RawSize(s))
    case NullableCompactText(o) => if o.Null? then Val(|PutUvarint(0)|) else Plus(|PutUvarint(|o.value| + 1)|, RawSize(o.value))
    case TextArray(texts) =>
      var n := ArrayLengthSize(|texts|);
      if n.Null? then Null else Plus(n.value, TextSizes(texts))
    case Int32Array(xs) => Plus(4 * |xs|, ArrayLengthSize(|xs|))
    case Int64Array(xs) => Plus(8 * |xs|, ArrayLengthSize(|xs|))
    case CompactInt32Array(a) => if a.Null? then Null else Val(|PutUvarint(|a.value| + 1)| + 4 * |a.value|)
    case NullableCompactInt32Array(a) => if a.Null? then Val(|PutUvarint(0)|) else Val(|PutUvarint(|a.value| + 1)| + 4 * |a.value|)
  }

  lemma {:induction false} TextSizesExact(texts: seq<Bytes>)
    requires TextSizes(texts).Val?
    ensures TextSizes(texts).value == |PutTexts(texts)|
  {
    if texts != [] { TextSizesExact(texts[1..]); }
  }

  /** The two passes agree on every primitive the sizing pass accepts. */
  lemma PrimExact(p: Prim)
    requires Sized(p).Val?
    ensures Sized(p).value == |Written(p)|
  {
    assert |PutUvarint(0)| == 1;
    hide PutInt, PutUvarint, PutVarint, PutInts, PutUint, Zigzag;
    if p.TextArray? { TextSizesExact(p.texts); }
    hide TextSizes, PutTexts;
  }

  // ------------------------------------------------------------------------ nested fields

  datatype Kind = Length32 | Crc32 | VarintLength

  /** lengthField, crc32Field and varintLengthField. */
  class PushField {
    const kind: Kind
    var startOffset: int
    var length: int

    /** `stale` is whatever an earlier encoding left behind. */
    constructor (kind: Kind, stale: int)
      ensures this.kind == kind && length == stale
    {
      this.kind, startOffset, length := kind, 0, stale;
    }

    method SaveOffset(at: int)
      modifies this`startOffset
      ensures startOffset == at
    {
      startOffset := at;
    }

    function ReserveLength(): nat
      reads this`length
    {
      if kind == VarintLength then |PutVarint(length)| else 4
    }

    /** Sets the length to what has been written since the field was pushed, and gives the change of
        the field's own width. */
    method AdjustLength(current: int) returns (delta: int)
      requires kind == VarintLength
      modifies this`length
      ensures length == current - startOffset - old(ReserveLength()) && delta == ReserveLength() - old(ReserveLength())
    {
      var oldSize := ReserveLength();
      length := current - startOffset - oldSize;
      delta := ReserveLength() - oldSize;
    }
  }

  datatype Call = Put(prim: Prim) | Group(field: PushField, body: seq<Call>)

  function FieldBytes(kind: Kind, body: Bytes, crc: Crc): (s: Bytes)
    ensures kind != VarintLength ==> |s| == 4
  {
    match kind
    case Length32 => PutInt(4, |body|)
    case Crc32 => PutUint(4, crc(body))
    case VarintLength => PutVarint(|body|)
  }

  /** The bytes the calls stand for: every field simply precedes its body. */
  function Encoded(calls: seq<Call>, crc: Crc): Bytes {
    if calls == [] then []
    else match calls[0]
      case Put(p) => Written(p) + Encoded(calls[1..], crc)
      case Group(f, body) => FieldBytes(f.kind, Encoded(body, crc), crc) + Encoded(body, crc) + Encoded(calls[1..], crc)
  }

  predicate Sizable(calls: seq<Call>) {
    calls == [] ||
    (match calls[0]
      case Put(p) => Sized(p).Val? && Sizable(calls[1..])
      case Group(_, body) => Sizable(body) && Sizable(calls[1..]))
  }

  function FieldsOf(calls: seq<Call>): set<PushField> {
    if calls == [] then {}
    else match calls[0]
      case Put(_) => FieldsOf(calls[1..])
      case Group(f, body) => {f} + FieldsOf(body) + FieldsOf(calls[1..])
  }

  /** No field is used twice. */
  ghost predicate Distinct(calls: seq<Call>) {
    calls == [] ||
    (match calls[0]
      case Put(_) => Distinct(calls[1..])
      case Group(f, body) =>
        && Distinct(body) && Distinct(calls[1..])
        && f !in FieldsOf(body) && f !in FieldsOf(calls[1..]) && FieldsOf(body) !! FieldsOf(calls[1..]))
  }

  /** Every varint length field knows the length of its body. */
  ghost predicate LengthsSet(calls: seq<Call>, crc: Crc)
    reads FieldsOf(calls)`length
  {
    calls == [] ||
    (match calls[0]
      case Put(_) => LengthsSet(calls[1..], crc)
      case Group(f, body) =>
        (f.kind == VarintLength ==> f.length == |Encoded(body, crc)|) && LengthsSet(body, crc) && LengthsSet(calls[1..], crc))
  }
}
