/** What encoders and decoders refuse: sizes, checksums and lengths that do not fit, whatever the bytes
    are. */
module WireChecks {
  import opened Wire
  import opened Encoding
  import opened Decoding
  import opened RecordCodec
  import opened BatchCodec
  import opened LegacyCodec

  // ------------------------------------------------------------------------------ primitives

  /** The sizing pass accepts exactly what its length fields can tell: texts of up to 32767 bytes, byte
      strings and arrays of up to 2147483647. */
  ghost predicate Tellable(p: Prim) {
    match p
    case ArrayLength(n) => n <= 2147483647
    case Raw(s) => |s| <= 2147483647
    case ByteField(o) => o.Val? ==> |o.value| <= 2147483647
    case VarintBytes(o) => o.Val? ==> |o.value| <= 2147483647
    case CompactBytes(s) => |s| <= 2147483647
    case Text(s) => |s| <= 32767
    case NullableText(o) => o.Val? ==> |o.value| <= 32767
    case CompactText(s) => |s| <= 2147483647
    case NullableCompactText(o) => o.Val? ==> |o.value| <= 2147483647
    case TextArray(texts) => |texts| <= 2147483647 && forall i :: 0 <= i < |texts| ==> |texts[i]| <= 32767
    case Int32Array(xs) => |xs| <= 2147483647
    case Int64Array(xs) => |xs| <= 2147483647
    case CompactInt32Array(a) => a.Val?
    case _ => true
  }

  lemma {:induction false} TextsSized(texts: seq<Bytes>)
    ensures TextSizes(texts).Val? <==> forall i :: 0 <= i < |texts| ==> |texts[i]| <= 32767
  {
    if texts != [] {
      TextsSized(texts[1..]);
      assert forall i :: 0 < i < |texts| ==> texts[i] == texts[1..][i - 1];
    }
  }

  lemma SizedIff(p: Prim)
    ensures Sized(p).Val? <==> Tellable(p)
  {
    hide PutVarint, PutUvarint;
    if p.TextArray? { TextsSized(p.texts); }
    hide TextSizes;
  }

  /** A varint that is read has at most ten bytes and 64 bits. */
  lemma {:induction false} UvarintBounded(s: Bytes, i: nat)
    requires i < MAX_VARINT_LEN_64
    ensures var r := GetUvarintFrom(s, i); r.Read? ==> r.value < Room(i) && r.size <= 10
    decreases |s|
  {
    if s != [] && s[0] >= 128 {
      if i + 1 < MAX_VARINT_LEN_64 { UvarintBounded(s[1..], i + 1); }
    } else if s != [] && i < MAX_VARINT_LEN_64 - 1 {
      RoomLeft(i);
    }
  }

  lemma {:induction false} RoomLeft(i: nat)
    requires i < MAX_VARINT_LEN_64 - 1
    ensures Room(i) >= 128
    decreases MAX_VARINT_LEN_64 - i
  {
    if i + 1 < MAX_VARINT_LEN_64 - 1 { RoomLeft(i + 1); }
  }

  lemma VarintBounded(s: Bytes)
    ensures var r := GetVarint(s); r.Read? ==> Fits(8, r.value) && r.size <= 10
  {
    Spans();
    RoomIs64Bits();
    UvarintBounded(s, 0);
  }

  /** An array length is refused as too long beyond 131070, unless more elements are announced than bytes
      are left. */
  lemma ArrayLengthChecked(s: Bytes)
    ensures |s| < 4 ==> ArrayLengthAt(s) == Short
    ensures |s| >= 4 ==> var n := GetInt(s[..4]);
              ArrayLengthAt(s) == if n > |s| - 4 then Short else if n > 131070 then Invalid else Ok(n, s[4..])
  {
  }

  /** Only times before 1970 other than the zero time cannot be written. */
  lemma UnwritableTime(t: Time)
    ensures Millis(t).Null? <==> t.Unix? && t.ns < 0
  {
  }

  // ------------------------------------------------------------------------- batches and records

  lemma HeadIs(s: Bytes)
    ensures HeadAt(s).Ok? <==> |s| >= 21
    ensures |s| >= 21 ==> HeadAt(s) == Ok(Head(GetInt(s[..8]), GetInt(s[8..12]), GetInt(s[12..16]), GetInt(s[16..17]), GetUint(s[17..21])), s[21..])
  {
    hide GetInt, GetUint;
    if |s| >= 21 {
      assert s[8..][..4] == s[8..12] && s[8..][4..] == s[12..];
      assert s[12..][..4] == s[12..16] && s[12..][4..] == s[16..];
      assert s[16..][..1] == s[16..17] && s[16..][1..] == s[17..];
      assert s[17..][..4] == s[17..21] && s[17..][4..] == s[21..];
    }
  }

  /** A batch that is accepted as a whole is as long as it says, has the checksum it says over all from
      the attributes on, and as many records as it says, with nothing behind them. */
  lemma AcceptedBatch(s: Bytes, comp: Compressor, crc: Crc)
    requires BatchAt(s, comp, crc).Ok? && BatchAt(s, comp, crc).value.Whole?
    ensures var b, n := BatchAt(s, comp, crc).value.batch, |s| - |BatchAt(s, comp, crc).rest|;
            && |s| >= 61 && 61 <= n <= |s| && n == 12 + GetInt(s[8..12]) && GetUint(s[17..21]) == crc(s[21..n]) && BatchAt(s, comp, crc).rest == s[n..]
            && b.firstOffset == GetInt(s[..8])
  {
    HeadIs(s);
    hide HeadAt, RecordsAt, GetInt, GetUint;
    var h, s1 := HeadAt(s).value, HeadAt(s).rest;
    MetaTakes40(s1);
    hide MetaAt;
    var m, s2 := MetaAt(s1).value, MetaAt(s1).rest;
    assert s2 == s[61..];
    var n := |s| - |BatchAt(s, comp, crc).rest|;
    var rest := s2[h.length - 49..];
    assert rest == s[12 + h.length..];
    assert Take(s1, rest) == s[21..12 + h.length];
  }

  /** Of a batch that is there as a whole and has its checksum, the records are what is inside: cut off if
      there is too little, refused if it cannot be decompressed or there is more. */
  lemma RecordsOutcome(h: Head, m: Meta, buffer: Bytes, rest: Bytes, summed: Bytes, comp: Compressor, crc: Crc)
    ensures var r, raw := RecordsIn(h, m, buffer, rest, summed, comp, crc), comp.inflate(m.attributes % 8, buffer);
            && (crc(summed) != h.sum || raw.Null? ==> r == Invalid)
            && (crc(summed) == h.sum && raw.Val? ==>
                  match RecordsAt(if m.count < 0 then 0 else m.count, raw.value)
                  case Short => r.Ok? && r.value.Partial? && r.value.batch.records == []
                  case Invalid => r == Invalid
                  case Ok(records, left) => if left == [] then r.Ok? && r.value.Whole? && r.value.batch.records == records else r == Invalid)
  {
    hide RecordsAt;
  }

  lemma MetaTakes40(s: Bytes)
    ensures MetaAt(s).Ok? ==> |s| >= 40 && MetaAt(s).rest == s[40..]
  {
    hide GetInt;
    if |s| >= 40 {
      assert s[2..][4..] == s[6..] && s[6..][8..] == s[14..] && s[14..][8..] == s[22..] && s[22..][8..] == s[30..];
      assert s[30..][2..] == s[32..] && s[32..][4..] == s[36..] && s[36..][4..] == s[40..];
    }
  }

  /** A record that is accepted takes the bytes it says, besides its length. */
  lemma AcceptedRecord(s: Bytes)
    requires RecordAt(s).Ok?
    ensures VarintAt(s).Ok? && |s| - |RecordAt(s).rest| == VarintAt(s).value + |PutVarint(VarintAt(s).value)|
  {
    hide VarintAt, BodyAt, PutVarint;
  }

  // ----------------------------------------------------------------------------- legacy messages

  /** A legacy message that is accepted is as long as it says and has the checksum it says. */
  lemma AcceptedMessage(s: Bytes, unwrap: Unwrap, crc: Crc)
    requires BlockAt(s, unwrap, crc).Block?
    ensures var r := BlockAt(s, unwrap, crc);
            var n := |s| - |r.rest|;
            && |s| >= 16 && 16 <= n <= |s| && n == 12 + GetInt(s[8..12]) && GetUint(s[12..16]) == crc(Take(s[16..], r.rest)) && |Take(s[16..], r.rest)| == n - 16
            && r.block.offset == GetInt(s[..8])
  {
    hide PlainAt, GetInt, GetUint;
    assert s[8..][..4] == s[8..12] && s[8..][4..] == s[12..];
    assert |s| >= 16 ==> s[12..][..4] == s[12..16] && s[12..][4..] == s[16..];
  }

  /** A message that is cut marks its set as partial, or at offset -1 as overflown; other sets are
      neither. */
  lemma CutMarks(s: Bytes, unwrap: Unwrap, crc: Crc)
    requires |s| > MAGIC_OFFSET && GetInt(s[16..17]) <= 1 && BlockAt(s, unwrap, crc).Cut?
    ensures MessageSetAt(s, unwrap, crc) == Ok(MessageSet([], GetInt(s[..8]) != -1, GetInt(s[..8]) == -1), [])
  {
    hide GetInt, BlockAt;
    CutOffset(s, unwrap, crc);
  }

  lemma CutOffset(s: Bytes, unwrap: Unwrap, crc: Crc)
    requires |s| >= 8 && BlockAt(s, unwrap, crc).Cut?
    ensures BlockAt(s, unwrap, crc).offset == GetInt(s[..8])
  {
    hide GetInt, MessageAt, LengthAt;
  }

  lemma {:induction false} NeverBoth(s: Bytes, unwrap: Unwrap, crc: Crc)
    ensures var r := MessageSetAt(s, unwrap, crc); r.Ok? ==> !(r.value.partial && r.value.overflow)
    decreases |s|
  {
    hide BlockAt, MagicAt;
    if s != [] && MagicAt(s).Val? && MagicAt(s).value <= 1 && BlockAt(s, unwrap, crc).Block? { NeverBoth(BlockAt(s, unwrap, crc).rest, unwrap, crc); }
  }
}
