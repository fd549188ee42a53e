/** Legacy messages and message sets: how they are written and read. */
module LegacyCodec {
  import opened Wire
  import opened Encoding
  import opened Decoding
  import opened RecordCodec
  import opened BatchCodec

  /** `inner` is the set a compressed message wraps. */
  datatype Message = Message(
    codec: int, logAppendTime: bool, key: Nullable<Bytes>, value: Nullable<Bytes>, version: int, timestamp: Time,
    inner: Nullable<seq<MessageBlock>>)

  datatype MessageBlock = MessageBlock(offset: int, msg: Message)

  /** The value and the set inside a compressed value; decompression is not modelled. */
  type Unwrap = (int, Bytes) -> Nullable<(Bytes, seq<MessageBlock>)>

  const MAGIC_OFFSET: nat := 16

  // ----------------------------------------------------------------------------- writing

  function PutBytes(o: Nullable<Bytes>): Bytes {
    Written(ByteField(o))
  }

  function AttributesOf(m: Message): int {
    m.codec % 8 + 8 * Bit(m.logAppendTime)
  }

  /** What the checksum covers; `millis` is the wire form of the timestamp. */
  function MessageBody(m: Message, millis: int): Bytes {
    PutInt(1, m.version) + (PutInt(1, AttributesOf(m)) + ((if m.version >= 1 then PutInt(8, millis) else []) + (PutBytes(m.key) + PutBytes(m.value))))
  }

  function MessageBytes(m: Message, millis: int, crc: Crc): Bytes {
    PutUint(4, crc(MessageBody(m, millis))) + MessageBody(m, millis)
  }

  function BlockBytes(b: MessageBlock, crc: Crc): Bytes
    requires Millis(b.msg.timestamp).Val?
  {
    var m := MessageBytes(b.msg, Millis(b.msg.timestamp).value, crc);
    PutInt(8, b.offset) + (PutInt(4, |m|) + m)
  }

  // ------------------------------------------------------------------------------ reading

  function ByteFieldAt(s: Bytes): (r: Result<Nullable<Bytes>>)
    ensures r.Ok? ==> |r.rest| <= |s|
  {
    match IntAt(4, s) case Short => Short case Invalid => Invalid case Ok(n, s1) =>
    if n == -1 then Ok(Null, s1)
    else match RawAt(n, s1) case Short => Short case Invalid => Invalid case Ok(b, s2) => Ok(Val(b), s2)
  }

  /** The timestamp, which only version 1 has. */
  function StampAt(version: int, s: Bytes): (r: Result<Time>)
    ensures r.Ok? ==> |r.rest| <= |s|
  {
    if version != 1 then Ok(Zero, s)
    else match IntAt(8, s) case Short => Short case Invalid => Invalid case Ok(millis, s1) => Ok(TimeOf(millis), s1)
  }

  /** A message without its checksum; a compressed value is unwrapped. */
  function PlainAt(s: Bytes, unwrap: Unwrap): (r: Result<Message>)
    ensures r.Ok? ==> |r.rest| <= |s|
  {
    match IntAt(1, s) case Short => Short case Invalid => Invalid case Ok(version, s1) =>
    if version > 1 then Invalid else
    match IntAt(1, s1) case Short => Short case Invalid => Invalid case Ok(attributes, s2) =>
    match StampAt(version, s2) case Short => Short case Invalid => Invalid case Ok(time, s3) =>
    match ByteFieldAt(s3) case Short => Short case Invalid => Invalid case Ok(key, s4) =>
    match ByteFieldAt(s4) case Short => Short case Invalid => Invalid case Ok(value, s5) =>
    var codec, late := attributes % 8, (attributes / 8) % 2 == 1;
    if value.Null? || codec == 0 then Ok(Message(codec, late, key, value, version, time, Null), s5)
    else match unwrap(codec, value.value)
      case Null => Invalid
      case Val(vs) => Ok(Message(codec, late, key, Val(vs.0), version, time, Val(vs.1)), s5)
  }

  function MessageAt(s: Bytes, unwrap: Unwrap, crc: Crc): (r: Result<Message>)
    ensures r.Ok? ==> |r.rest| <= |s|
  {
    match UintAt(4, s) case Short => Short case Invalid => Invalid case Ok(sum, s1) =>
    match PlainAt(s1, unwrap) case Short => Short case Invalid => Invalid case Ok(m, s2) =>
    if crc(Take(s1, s2)) != sum then Invalid else Ok(m, s2)
  }

  /** The length field of a block, which must not announce more than is left. */
  function LengthAt(s: Bytes): (r: Result<int>)
    ensures r.Ok? ==> |r.rest| <= |s|
  {
    match IntAt(4, s) case Short => Short case Invalid => Invalid case Ok(n, s1) => if n > |s1| then Short else Ok(n, s1)
  }

  /** A block; when too short, with the offset as far as it could be read. */
  datatype BlockResult = Block(block: MessageBlock, rest: Bytes) | Cut(offset: int) | Bad

  function BlockAt(s: Bytes, unwrap: Unwrap, crc: Crc): (r: BlockResult)
    ensures r.Block? ==> |r.rest| < |s|
  {
    match IntAt(8, s) case Short => BlockResult.Cut(-1) case Invalid => Bad case Ok(offset, s1) =>
    match LengthAt(s1) case Short => BlockResult.Cut(offset) case Invalid => Bad case Ok(n, s2) =>
    match MessageAt(s2, unwrap, crc) case Short => BlockResult.Cut(offset) case Invalid => Bad case Ok(m, s3) =>
    if |s2| - |s3| != n then Bad else Block(MessageBlock(offset, m), s3)
  }

  datatype MessageSet = MessageSet(messages: seq<MessageBlock>, partial: bool, overflow: bool)

  function MagicAt(s: Bytes): Nullable<int> {
    if |s| < MAGIC_OFFSET + 1 then Null else Val(GetInt(s[MAGIC_OFFSET..MAGIC_OFFSET + 1]))
  }

  /** MessageSet.decode: messages until the bytes end, a later format begins, or a message is cut. */
  function MessageSetAt(s: Bytes, unwrap: Unwrap, crc: Crc): Result<MessageSet>
    decreases |s|
  {
    if s == [] then Ok(MessageSet([], false, false), s)
    else if MagicAt(s).Null? then Ok(MessageSet([], true, false), s)
    else if MagicAt(s).value > 1 then Ok(MessageSet([], false, false), s)
    else match BlockAt(s, unwrap, crc)
      case Bad => Invalid
      case Cut(offset) => Ok(MessageSet([], offset != -1, offset == -1), [])
      case Block(b, rest) =>
        match MessageSetAt(rest, unwrap, crc)
        case Short => Short
        case Invalid => Invalid
        case Ok(set', left) => Ok(set'.(messages := [b] + set'.messages), left)
  }

  function After(ms: seq<MessageBlock>, r: Result<MessageSet>): Result<MessageSet> {
    match r case Short => Short case Invalid => Invalid case Ok(set', rest) => Ok(set'.(messages := ms + set'.messages), rest)
  }

  lemma AfterOne(ms: seq<MessageBlock>, b: MessageBlock, r: Result<MessageSet>)
    ensures After(ms, After([b], r)) == After(ms + [b], r)
  {
    if r.Ok? { assert ms + ([b] + r.value.messages) == ms + [b] + r.value.messages; }
  }

  /** The loop of MessageSet.decode. */
  method DecodeMessageSet(s: Bytes, unwrap: Unwrap, crc: Crc) returns (r: Result<MessageSet>)
    ensures r == MessageSetAt(s, unwrap, crc)
  {
    hide BlockAt, MagicAt;
    var rest, messages := s, [];
    ghost var all := MessageSetAt(s, unwrap, crc);
    assert After([], all) == all by { if all.Ok? { assert [] + all.value.messages == all.value.messages; } }
    while rest != []
      invariant all == After(messages, MessageSetAt(rest, unwrap, crc))
      decreases |rest|
    {
      assert messages + [] == messages;
      var magic := MagicAt(rest);
      if magic.Null? { return Ok(MessageSet(messages, true, false), rest); }
      if magic.value > 1 { return Ok(MessageSet(messages, false, false), rest); }
      var b := BlockAt(rest, unwrap, crc);
      if b.Bad? { return Invalid; }
      if b.Cut? { return Ok(MessageSet(messages, b.offset != -1, b.offset == -1), []); }
      assert MessageSetAt(rest, unwrap, crc) == After([b.block], MessageSetAt(b.rest, unwrap, crc));
      AfterOne(messages, b.block, MessageSetAt(b.rest, unwrap, crc));
      messages, rest := messages + [b.block], b.rest;
    }
    assert messages + [] == messages;
    r := Ok(MessageSet(messages, false, false), rest);
  }

  // --------------------------------------------------------------------- whole messages

  /** As it can be written, and not compressed. */
  predicate ValidBlock(b: MessageBlock) {
    ValidWrapper(b) && b.msg.codec == 0
  }

  /** Field values as their Go types can hold them, sizes as they can be encoded; a message of version 0
      has no timestamp. The value is as it goes on the wire: compressed, if there is a codec. */
  predicate ValidWrapper(b: MessageBlock) {
    var m := b.msg;
    && Fits(8, b.offset) && b.offset != -1 && 0 <= m.codec < 8 && m.inner.Null? && 0 <= m.version <= 1
    && ValidTime(m.timestamp) && (m.version == 0 ==> m.timestamp.Zero?)
    && SmallBytes(m.key) && SmallBytes(m.value)
    && (Millis(m.timestamp).Val? ==> |MessageBody(m, Millis(m.timestamp).value)| <= MAX_INT32 - 4)
  }

  lemma ByteFieldRead(o: Nullable<Bytes>, rest: Bytes)
    requires SmallBytes(o)
    ensures ByteFieldAt(PutBytes(o) + rest) == Ok(o, rest)
  {
    if o.Null? {
      MinusOneFits();
      IntRead(4, -1, rest);
    } else {
      var b := o.value;
      SmallFits(|b|);
      IntRead(4, |b|, b + rest);
      RawRead(b, rest);
      hide PutInt, IntAt, RawAt, Fits;
      assert PutBytes(o) + rest == PutInt(4, |b|) + (b + rest);
    }
  }

  lemma MinusOneFits()
    ensures Fits(4, -1) && Fits(8, -1)
  {
    Spans();
  }

  lemma StampRead(m: Message, rest: Bytes)
    requires ValidTime(m.timestamp) && 0 <= m.version <= 1 && (m.version == 0 ==> m.timestamp.Zero?)
    ensures Millis(m.timestamp).Val?
    ensures StampAt(m.version, (if m.version >= 1 then PutInt(8, Millis(m.timestamp).value) else []) + rest) == Ok(m.timestamp, rest)
  {
    TimeRoundTrip(m.timestamp);
    if m.version == 1 { IntRead(8, Millis(m.timestamp).value, rest); } else { assert [] + rest == rest; }
  }

  lemma SmallAttributes(m: Message)
    requires 0 <= m.codec < 8 && 0 <= m.version <= 1
    ensures Fits(1, m.version) && Fits(1, AttributesOf(m)) && AttributesOf(m) % 8 == m.codec && ((AttributesOf(m) / 8) % 2 == 1 <==> m.logAppendTime)
  {
    Spans();
  }

  /** What a message is read as: a compressed value is decompressed, and the set in it decoded. */
  function Unwrapped(m: Message, unwrap: Unwrap): Nullable<Message> {
    if m.value.Null? || m.codec == 0 then Val(m)
    else match unwrap(m.codec, m.value.value)
      case Null => Null
      case Val(vs) => Val(m.(value := Val(vs.0), inner := Val(vs.1)))
  }

  lemma PlainRead(m: Message, millis: int, tail: Bytes, unwrap: Unwrap)
    requires 0 <= m.codec < 8 && m.inner.Null? && 0 <= m.version <= 1 && ValidTime(m.timestamp) && (m.version == 0 ==> m.timestamp.Zero?)
    requires SmallBytes(m.key) && SmallBytes(m.value) && Millis(m.timestamp) == Val(millis)
    ensures PlainAt(MessageBody(m, millis) + tail, unwrap) == if Unwrapped(m, unwrap).Null? then Invalid else Ok(Unwrapped(m, unwrap).value, tail)
  {
    hide PutInt, IntAt, StampAt, ByteFieldAt, Fits, AttributesOf, PutBytes, SmallBytes, ValidTime, Millis;
    var stamp := if m.version >= 1 then PutInt(8, millis) else [];
    var s4 := PutBytes(m.value) + tail;
    var s3 := PutBytes(m.key) + s4;
    var s2 := stamp + s3;
    var s1 := PutInt(1, AttributesOf(m)) + s2;
    SmallAttributes(m);
    IntRead(1, m.version, s1);
    IntRead(1, AttributesOf(m), s2);
    StampRead(m, s3);
    ByteFieldRead(m.key, s4);
    ByteFieldRead(m.value, tail);
    Regroup(PutInt(1, m.version), PutInt(1, AttributesOf(m)), stamp + (PutBytes(m.key) + PutBytes(m.value)), tail);
    Regroup(stamp, PutBytes(m.key), PutBytes(m.value), tail);
    assert MessageBody(m, millis) + tail == PutInt(1, m.version) + s1;
  }

  lemma MessageRead(m: Message, millis: int, tail: Bytes, unwrap: Unwrap, crc: Crc)
    requires PlainAt(MessageBody(m, millis) + tail, unwrap) == if Unwrapped(m, unwrap).Null? then Invalid else Ok(Unwrapped(m, unwrap).value, tail)
    ensures MessageAt(MessageBytes(m, millis, crc) + tail, unwrap, crc) == PlainAt(MessageBody(m, millis) + tail, unwrap)
  {
    hide PlainAt, MessageBody, PutUint, UintAt;
    Spans();
    var body := MessageBody(m, millis);
    UintRead(4, crc(body), body + tail);
    Regroup(PutUint(4, crc(body)), body, tail, []);
    assert Take(body + tail, tail) == body;
  }

  /** A written message is read back as it was, up to exactly its end. */
  lemma BlockRead(b: MessageBlock, tail: Bytes, unwrap: Unwrap, crc: Crc)
    requires ValidBlock(b)
    ensures Millis(b.msg.timestamp).Val? && BlockAt(BlockBytes(b, crc) + tail, unwrap, crc) == Block(b, tail)
  {
    hide ValidWrapper, BlockAt, BlockBytes;
    WrapperRead(b, tail, unwrap, crc);
  }

  /** A compressed message is read back with what its value decompresses to and the set in that, and is
      refused if it does not decompress; the rest is read back as it was. */
  lemma WrapperRead(b: MessageBlock, tail: Bytes, unwrap: Unwrap, crc: Crc)
    requires ValidWrapper(b)
    ensures Millis(b.msg.timestamp).Val?
    ensures BlockAt(BlockBytes(b, crc) + tail, unwrap, crc) ==
              if b.msg.value.Null? || b.msg.codec == 0 then Block(b, tail)
              else match unwrap(b.msg.codec, b.msg.value.value)
                case Null => Bad
                case Val(vs) => Block(b.(msg := b.msg.(value := Val(vs.0), inner := Val(vs.1))), tail)
  {
    TimeRoundTrip(b.msg.timestamp);
    var millis := Millis(b.msg.timestamp).value;
    var m := MessageBytes(b.msg, millis, crc);
    PlainRead(b.msg, millis, tail, unwrap);
    MessageRead(b.msg, millis, tail, unwrap, crc);
    SmallFits(|m|);
    hide PutInt, IntAt, MessageAt, MessageBytes, PlainAt, Fits;
    IntRead(8, b.offset, PutInt(4, |m|) + (m + tail));
    IntRead(4, |m|, m + tail);
    Regroup(PutInt(8, b.offset), PutInt(4, |m|), m, tail);
  }
}
