/** Fetch responses that end in the middle of a batch or message: a broker cuts the bytes off
    wherever its limit falls. */
module Truncation {
  import opened Wire
  import opened Encoding
  import opened Decoding
  import opened RecordCodec
  import opened BatchCodec
  import opened LegacyCodec

  /** What is not modelled: compression and the two checksums. */
  datatype Env = Env(comp: Compressor, castagnoli: Crc, unwrap: Unwrap, ieee: Crc)

  datatype RecordSet = Legacy(messages: MessageSet) | Default(decoded: Decoded)

  datatype FetchBlock = FetchBlock(sets: seq<RecordSet>, partial: bool, lastOffset: Nullable<int>)

  function NumRecords(r: RecordSet): nat {
    match r
    case Legacy(set') => |set'.messages|
    case Default(d) => if d.Whole? then |d.batch.records| else 0
  }

  predicate IsPartialSet(r: RecordSet) {
    match r
    case Legacy(set') => set'.partial
    case Default(d) => d.Partial?
  }

  predicate IsOverflow(r: RecordSet) {
    r.Legacy? && r.messages.overflow
  }

  function RecordsOffset(r: RecordSet): Nullable<int> {
    if r.Legacy? then Null else Val(r.decoded.batch.firstOffset)
  }

  predicate IsPartial(b: FetchBlock) {
    b.partial || (|b.sets| == 1 && IsPartialSet(b.sets[0]))
  }

  function TotalRecords(sets: seq<RecordSet>): nat {
    if sets == [] then 0 else NumRecords(sets[0]) + TotalRecords(sets[1..])
  }

  // ------------------------------------------------------------------------------ decoding

  /** Records.decode: the magic byte tells legacy sets and batches apart. */
  function SetAt(s: Bytes, env: Env): (r: Result<RecordSet>)
    ensures r.Ok? ==> |r.rest| < |s|
  {
    match MagicAt(s)
    case Null => Short
    case Val(magic) =>
      if magic < 2 then
        match MessageSetAt(s, env.unwrap, env.ieee)
        case Short => Short
        case Invalid => Invalid
        case Ok(set', rest) => Progress(s, env); Ok(Legacy(set'), rest)
      else
        match BatchAt(s, env.comp, env.castagnoli)
        case Short => Short
        case Invalid => Invalid
        case Ok(d, rest) => Ok(Default(d), rest)
  }

  lemma {:induction false} SetShrinks(s: Bytes, env: Env)
    ensures var r := MessageSetAt(s, env.unwrap, env.ieee); r.Ok? ==> |r.rest| <= |s|
    decreases |s|
  {
    if s != [] && MagicAt(s).Val? && MagicAt(s).value <= 1 && BlockAt(s, env.unwrap, env.ieee).Block? {
      SetShrinks(BlockAt(s, env.unwrap, env.ieee).rest, env);
    }
  }

  lemma Progress(s: Bytes, env: Env)
    requires MagicAt(s).Val? && MagicAt(s).value < 2
    ensures var r := MessageSetAt(s, env.unwrap, env.ieee); r.Ok? ==> |r.rest| < |s|
  {
    if BlockAt(s, env.unwrap, env.ieee).Block? { SetShrinks(BlockAt(s, env.unwrap, env.ieee).rest, env); }
  }

  predicate Keeps(r: RecordSet, sets: seq<RecordSet>) {
    NumRecords(r) > 0 || (IsPartialSet(r) && sets == [])
  }

  /** The loop of FetchResponseBlock.decode; nothing when a record set is invalid. */
  function Scan(s: Bytes, sets: seq<RecordSet>, last: Nullable<int>, env: Env): Nullable<FetchBlock>
    decreases |s|
  {
    if s == [] then Val(FetchBlock(sets, false, last))
    else match SetAt(s, env)
      case Short => Val(FetchBlock(sets, sets == [], last))
      case Invalid => Null
      case Ok(r, rest) =>
        var sets' := if Keeps(r, sets) then sets + [r] else sets;
        if IsPartialSet(r) || IsOverflow(r) then Val(FetchBlock(sets', false, RecordsOffset(r)))
        else Scan(rest, sets', RecordsOffset(r), env)
  }

  method DecodeSets(s: Bytes, env: Env) returns (r: Nullable<FetchBlock>)
    ensures r == Scan(s, [], Null, env)
  {
    var rest, sets, last := s, [], Null;
    while rest != []
      invariant Scan(s, [], Null, env) == Scan(rest, sets, last, env)
      decreases |rest|
    {
      var d := SetAt(rest, env);
      if d.Short? { return Val(FetchBlock(sets, |sets| == 0, last)); }
      if d.Invalid? { return Null; }
      last := RecordsOffset(d.value);
      if NumRecords(d.value) > 0 || (IsPartialSet(d.value) && |sets| == 0) { sets := sets + [d.value]; }
      if IsPartialSet(d.value) || IsOverflow(d.value) { return Val(FetchBlock(sets, false, last)); }
      rest := d.rest;
    }
    r := Val(FetchBlock(sets, false, last));
  }

  // ------------------------------------------------------------------------- cut numbers

  lemma IntCut(w: nat, x: int, rest: Bytes, j: nat)
    requires w > 0 && Fits(w, x) && j <= w + |rest|
    ensures IntAt(w, (PutInt(w, x) + rest)[..j]) == if j < w then Short else Ok(x, rest[..j - w])
  {
    if j >= w {
      IntRead(w, x, rest[..j - w]);
      assert (PutInt(w, x) + rest)[..j] == PutInt(w, x) + rest[..j - w];
    }
  }

  lemma UintCut(w: nat, u: nat, rest: Bytes, j: nat)
    requires u < Span(w) && j <= w + |rest|
    ensures UintAt(w, (PutUint(w, u) + rest)[..j]) == if j < w then Short else Ok(u, rest[..j - w])
  {
    if j >= w {
      UintRead(w, u, rest[..j - w]);
      assert (PutUint(w, u) + rest)[..j] == PutUint(w, u) + rest[..j - w];
    }
  }

  lemma ArrayLengthCut(n: nat, rest: Bytes, j: nat)
    requires n <= MAX_ARRAY_LENGTH && j <= 4 + |rest|
    ensures ArrayLengthAt((PutInt(4, n) + rest)[..j]) == if j < 4 || n > j - 4 then Short else Ok(n, rest[..j - 4])
  {
    if j >= 4 {
      ArrayLengthRead(n, rest[..j - 4]);
      assert (PutInt(4, n) + rest)[..j] == PutInt(4, n) + rest[..j - 4];
    }
  }

  // --------------------------------------------------------------------------- cut batches

  lemma HeadCut(b: Batch, meta: Bytes, crc: Crc, j: nat)
    requires Fits(8, b.firstOffset) && Fits(4, b.leaderEpoch) && Fits(1, b.version) && |Inner(b, meta, crc)| <= MAX_INT32
    requires j <= 21 + |meta|
    ensures |Framed(b, Inner(b, meta, crc))| == 21 + |meta|
    ensures HeadAt(Framed(b, Inner(b, meta, crc))[..j]) ==
              if j < 21 then Short
              else Ok(Head(b.firstOffset, |Inner(b, meta, crc)|, b.leaderEpoch, b.version, crc(meta)), meta[..j - 21])
  {
    hide PutInt, PutUint, IntAt, UintAt, Fits, Span;
    Spans();
    var inner := Inner(b, meta, crc);
    SmallFits(|inner|);
    var s4 := PutUint(4, crc(meta)) + meta;
    var s3 := PutInt(1, b.version) + s4;
    var s2 := PutInt(4, b.leaderEpoch) + s3;
    var s1 := PutInt(4, |inner|) + s2;
    IntCut(8, b.firstOffset, s1, j);
    if j >= 8 { IntCut(4, |inner|, s2, j - 8); }
    if j >= 12 { IntCut(4, b.leaderEpoch, s3, j - 12); }
    if j >= 16 { IntCut(1, b.version, s4, j - 16); }
    if j >= 17 { UintCut(4, crc(meta), meta, j - 17); }
  }

  lemma MetaCut(a: int, lod: int, first: int, max: int, id: int, epoch: int, seq': int, n: nat, data: Bytes, j: nat)
    requires Fits(2, a) && Fits(4, lod) && Fits(8, first) && Fits(8, max) && Fits(8, id) && Fits(2, epoch) && Fits(4, seq') && n <= MAX_ARRAY_LENGTH
    requires j <= 40 + |data|
    ensures |MetaThen(a, lod, first, max, id, epoch, seq', n, data, [])| == 40 + |data|
    ensures MetaAt(MetaThen(a, lod, first, max, id, epoch, seq', n, data, [])[..j]) ==
              if j < 40 || n > j - 40 then Short else Ok(Meta(a, lod, first, max, id, epoch, seq', n), data[..j - 40])
  {
    hide PutInt, IntAt, ArrayLengthAt, Fits;
    assert data + [] == data;
    var s7 := PutInt(4, n) + data;
    var s6 := PutInt(4, seq') + s7;
    var s5 := PutInt(2, epoch) + s6;
    var s4 := PutInt(8, id) + s5;
    var s3 := PutInt(8, max) + s4;
    var s2 := PutInt(8, first) + s3;
    var s1 := PutInt(4, lod) + s2;
    IntCut(2, a, s1, j);
    if j >= 2 { IntCut(4, lod, s2, j - 2); }
    if j >= 6 { IntCut(8, first, s3, j - 6); }
    if j >= 14 { IntCut(8, max, s4, j - 14); }
    if j >= 22 { IntCut(8, id, s5, j - 22); }
    if j >= 30 { IntCut(2, epoch, s6, j - 30); }
    if j >= 32 { IntCut(4, seq', s7, j - 32); }
    if j >= 36 { ArrayLengthCut(n, data, j - 36); }
  }

  /** A batch as a broker may send it: with records, and not compressed. */
  ghost predicate Plain(b: Batch, env: Env) {
    && ValidBatch(b, env.comp) && b.codec == 0 && b.records != []
    && Inverse(env.comp, 0) && forall s :: env.comp.deflate(0, s) == s
  }

  function Sent(b: Batch, env: Env): Bytes
    requires HasTimes(b)
  {
    BatchBytes(b, env.comp, env.castagnoli)
  }

  /** The parts of a plain batch's bytes. */
  lemma SentShape(b: Batch, env: Env) returns (first: int, max: int, meta: Bytes)
    requires Plain(b, env)
    ensures HasTimes(b) && first == Millis(b.firstTimestamp).value && max == Millis(b.maxTimestamp).value
    ensures Fits(8, first) && Fits(8, max) && Fits(2, ComputeAttributes(b)) && Fits(1, b.version)
    ensures var data := RecordsBytes(b.records);
            && meta == MetaThen(ComputeAttributes(b), b.lastOffsetDelta, first, max, b.producerID, b.producerEpoch, b.firstSequence, |b.records|, data, [])
            && |meta| == 40 + |data| && |Inner(b, meta, env.castagnoli)| == RECORD_BATCH_OVERHEAD + |data| <= MAX_INT32
            && Sent(b, env) == Framed(b, Inner(b, meta, env.castagnoli)) && |Sent(b, env)| == 21 + |meta|
  {
    TimeRoundTrip(b.firstTimestamp);
    TimeRoundTrip(b.maxTimestamp);
    AttributesRoundTrip(b);
    Spans();
    first, max := Millis(b.firstTimestamp).value, Millis(b.maxTimestamp).value;
    var data := RecordsBytes(b.records);
    meta := MetaBytes(b, first, max, data);
    OverheadExact(b, first, max, data, env.castagnoli);
    MetaShape(b, first, max, data, []);
    hide MetaBytes, Inner, Framed, MetaThen, ComputeAttributes, RecordsBytes;
    assert meta + [] == meta;
  }

  /** The magic byte of a batch is its version. */
  lemma BatchMagic(b: Batch, inner: Bytes, j: nat, rest: Bytes)
    requires Fits(1, b.version) && inner == PutInt(4, b.leaderEpoch) + (PutInt(1, b.version) + rest) && 17 <= j <= |Framed(b, inner)|
    ensures MagicAt(Framed(b, inner)[..j]) == Val(b.version)
  {
    var s := Framed(b, inner);
    IntRoundTrip(1, b.version);
    hide PutInt, Fits;
    assert s[16..17] == PutInt(1, b.version);
    assert s[..j][16..17] == s[16..17];
  }

  ghost predicate CutOff(r: Result<Decoded>) {
    r == Short || (r.Ok? && r.value.Partial?)
  }

  lemma HeaderOnly(s: Bytes, comp: Compressor, crc: Crc)
    requires var h := HeadAt(s);
             h == Short || (h.Ok? && var m := MetaAt(h.rest); m == Short || (m.Ok? && |m.rest| < h.value.length - RECORD_BATCH_OVERHEAD))
    ensures CutOff(BatchAt(s, comp, crc))
  {
    hide HeadAt, MetaAt, RecordsIn, BatchOf;
  }

  lemma SetOfBatch(s: Bytes, env: Env)
    requires MagicAt(s) == Val(2)
    ensures SetAt(s, env) ==
              match BatchAt(s, env.comp, env.castagnoli) case Short => Short case Invalid => Invalid case Ok(d, rest) => Ok(Default(d), rest)
  {
    hide BatchAt, MessageSetAt, MagicAt;
  }

  /** A batch cut anywhere inside is not an error: it reads as too short or as partial. */
  lemma BatchCut(b: Batch, env: Env, j: nat)
    requires Plain(b, env) && HasTimes(b) && j < |Sent(b, env)|
    ensures var r := SetAt(Sent(b, env)[..j], env);
            r == Short || (r.Ok? && r.value.Default? && r.value.decoded.Partial?)
  {
    hide HeadAt, MetaAt, Framed, MetaThen, ComputeAttributes, RecordsBytes, BatchAt, MessageSetAt, Sent, SetAt;
    var first, max, meta := SentShape(b, env);
    var data := RecordsBytes(b.records);
    var crc := env.castagnoli;
    var inner := Inner(b, meta, crc);
    var s := Framed(b, inner);
    assert Fits(8, b.firstOffset) && Fits(4, b.leaderEpoch) && b.version == 2 && |b.records| <= MAX_ARRAY_LENGTH;
    HeadCut(b, meta, crc, j);
    if j < 17 {
      assert SetAt(s[..j], env) == Short by { TooShortForMagic(s[..j], env); }
    } else {
      BatchMagic(b, inner, j, PutUint(4, crc(meta)) + meta);
      SetOfBatch(s[..j], env);
      if j >= 21 {
        MetaCut(ComputeAttributes(b), b.lastOffsetDelta, first, max, b.producerID, b.producerEpoch, b.firstSequence, |b.records|, data, j - 21);
      }
      hide Inner, Plain, Fits, MagicAt;
      HeaderOnly(s[..j], env.comp, crc);
    }
  }

  lemma TooShortForMagic(s: Bytes, env: Env)
    requires |s| < 17
    ensures SetAt(s, env) == Short
  {
  }

  // ------------------------------------------------------------------- streams of batches

  ghost predicate AllPlain(bs: seq<Batch>, env: Env) {
    forall i :: 0 <= i < |bs| ==> Plain(bs[i], env) && HasTimes(bs[i])
  }

  /** The bytes of several batches, one after the other. */
  ghost function Stream(bs: seq<Batch>, env: Env): Bytes
    requires AllPlain(bs, env)
  {
    if bs == [] then [] else Sent(bs[0], env) + Stream(bs[1..], env)
  }

  /** How many of the batches are wholly within the first k bytes. */
  ghost function Complete(bs: seq<Batch>, k: nat, env: Env): nat
    requires AllPlain(bs, env)
  {
    if bs == [] || k < |Sent(bs[0], env)| then 0 else 1 + Complete(bs[1..], k - |Sent(bs[0], env)|, env)
  }

  ghost function Wholes(bs: seq<Batch>): seq<RecordSet> {
    if bs == [] then [] else [Default(Whole(bs[0]))] + Wholes(bs[1..])
  }

  lemma {:induction false} CompleteBound(bs: seq<Batch>, k: nat, env: Env)
    requires AllPlain(bs, env)
    ensures Complete(bs, k, env) <= |bs|
  {
    hide Plain, Sent, HasTimes;
    if bs != [] && k >= |Sent(bs[0], env)| { CompleteBound(bs[1..], k - |Sent(bs[0], env)|, env); }
  }

  /** The outcome of decoding: the sets before and the complete batches; and when that is nothing at
      all though there are bytes, a block that has no records and says that it is partial. */
  ghost predicate Tolerates(r: Nullable<FetchBlock>, sets: seq<RecordSet>, k: nat) {
    && r.Val?
    && (sets != [] || k == 0 ==> r.value.sets == sets && !r.value.partial)
    && (sets == [] && k > 0 ==> IsPartial(r.value) && TotalRecords(r.value.sets) == 0)
  }

  lemma ReadBatch(b: Batch, tail: Bytes, env: Env)
    requires Plain(b, env) && HasTimes(b)
    ensures SetAt(Sent(b, env) + tail, env) == Ok(Default(Whole(b)), tail)
  {
    hide HeadAt, MetaAt, MetaThen, ComputeAttributes, RecordsBytes, BatchAt, MessageSetAt, SetAt;
    var first, max, meta := SentShape(b, env);
    var crc := env.castagnoli;
    var inner := Inner(b, meta, crc);
    var s := Framed(b, inner);
    BatchMagic(b, inner, |s|, PutUint(4, crc(meta)) + meta);
    PlainBatchRoundTrip(b, tail, env.comp, crc);
    assert MagicAt(s + tail) == Val(2) by {
      assert s[..|s|] == s;
      assert (s + tail)[16..17] == s[16..17];
    }
    SetOfBatch(s + tail, env);
  }

  /** A stream cut inside its first batch. */
  lemma CutInside(b: Batch, k: nat, sets: seq<RecordSet>, last: Nullable<int>, env: Env)
    requires Plain(b, env) && HasTimes(b) && k < |Sent(b, env)|
    ensures Tolerates(Scan(Sent(b, env)[..k], sets, last, env), sets, k)
  {
    var s := Sent(b, env)[..k];
    if k > 0 {
      BatchCut(b, env, k);
      var r := SetAt(s, env);
      hide Sent, Plain, SetAt, HasTimes;
      if r.Ok? {
        assert IsPartialSet(r.value) && NumRecords(r.value) == 0;
        assert TotalRecords([r.value]) == NumRecords(r.value) + TotalRecords([r.value][1..]);
        assert [] + [r.value] == [r.value];
      }
    }
  }

  /** Truncation tolerance, batches: however many bytes of the stream arrive, decoding gives exactly
      the complete batches, without error; when none is complete but some bytes are there, the block
      is reported partial. */
  lemma {:induction false} CutStream(bs: seq<Batch>, k: nat, sets: seq<RecordSet>, last: Nullable<int>, env: Env)
    requires AllPlain(bs, env) && k <= |Stream(bs, env)|
    ensures Complete(bs, k, env) <= |bs|
    ensures Tolerates(Scan(Stream(bs, env)[..k], sets, last, env), sets + Wholes(bs[..Complete(bs, k, env)]), k + |sets|)
    decreases bs
  {
    hide Sent, Plain, SetAt, HasTimes, IsPartial, TotalRecords;
    CompleteBound(bs, k, env);
    if bs == [] {
      assert Stream(bs, env)[..k] == [];
      assert sets + [] == sets;
    } else {
      var b := bs[0];
      var n := |Sent(b, env)|;
      if k < n {
        CutInside(b, k, sets, last, env);
        assert Stream(bs, env)[..k] == Sent(b, env)[..k];
        assert sets + [] == sets;
      } else {
        var rest := Stream(bs[1..], env)[..k - n];
        assert Stream(bs, env)[..k] == Sent(b, env) + rest;
        ReadBatch(b, rest, env);
        var one := Default(Whole(b));
        ScanOne(b, rest, sets, last, env);
        CutStream(bs[1..], k - n, sets + [one], Val(b.firstOffset), env);
        var c := Complete(bs[1..], k - n, env);
        assert bs[..c + 1] == [b] + bs[1..][..c];
        assert sets + [one] + Wholes(bs[1..][..c]) == sets + Wholes(bs[..c + 1]);
      }
    }
  }

  lemma ScanOne(b: Batch, rest: Bytes, sets: seq<RecordSet>, last: Nullable<int>, env: Env)
    requires Plain(b, env) && HasTimes(b) && SetAt(Sent(b, env) + rest, env) == Ok(Default(Whole(b)), rest)
    ensures Sent(b, env) != []
    ensures Scan(Sent(b, env) + rest, sets, last, env) == Scan(rest, sets + [Default(Whole(b))], Val(b.firstOffset), env)
  {
    hide Sent, SetAt, HasTimes;
    assert b.records != [];
  }

  /** Complete counts the most batches that fit. */
  lemma {:induction false} CompleteIsMost(bs: seq<Batch>, k: nat, env: Env)
    requires AllPlain(bs, env)
    ensures var n := Complete(bs, k, env);
            n <= |bs| && |Stream(bs[..n], env)| <= k && (n < |bs| ==> k < |Stream(bs[..n + 1], env)|)
    decreases bs
  {
    hide Plain, Sent, HasTimes;
    if bs == [] || k < |Sent(bs[0], env)| {
      assert bs[..0] == [];
      if bs != [] { assert bs[..1][1..] == []; }
    } else {
      CompleteIsMost(bs[1..], k - |Sent(bs[0], env)|, env);
      var c := Complete(bs[1..], k - |Sent(bs[0], env)|, env);
      assert bs[..c + 1][1..] == bs[1..][..c];
      if c < |bs[1..]| { assert bs[..c + 2][1..] == bs[1..][..c + 1]; }
    }
  }

  /** The outcome for a fetched block that holds the first k bytes of a stream of batches. */
  lemma TruncatedFetch(bs: seq<Batch>, k: nat, env: Env)
    requires AllPlain(bs, env) && k <= |Stream(bs, env)|
    ensures Complete(bs, k, env) <= |bs|
    ensures var r := Scan(Stream(bs, env)[..k], [], Null, env);
            var n := Complete(bs, k, env);
            && r.Val?
            && (n > 0 ==> r.value.sets == Wholes(bs[..n]) && !r.value.partial)
            && (n == 0 && k > 0 ==> IsPartial(r.value) && TotalRecords(r.value.sets) == 0)
            && (k == 0 ==> r.value.sets == [] && !IsPartial(r.value))
  {
    hide Plain, Sent, HasTimes, Scan, TotalRecords;
    CutStream(bs, k, [], Null, env);
    var n := Complete(bs, k, env);
    assert [] + Wholes(bs[..n]) == Wholes(bs[..n]);
    CompleteIsMost(bs, k, env);
    if n == 0 { assert bs[..n] == []; } else { StreamIsLong(bs[..n], env); }
  }

  lemma StreamIsLong(bs: seq<Batch>, env: Env)
    requires AllPlain(bs, env) && bs != []
    ensures |Stream(bs, env)| > 0
  {
    var first, max, meta := SentShape(bs[0], env);
    hide Sent, Plain;
  }
}
