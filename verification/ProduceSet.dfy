/** A set of messages on their way to one broker, grouped by partition into v2 record batches. */
module ProduceSets {
  import opened Wire
  import opened Encoding
  import opened RecordCodec
  import opened BatchCodec

  datatype Topic = Topic(name: string)

  datatype Slot = Slot(topic: Topic, partition: int)

  /** A key or value: its encoder may fail. */
  datatype Payload = Absent | Encodes(bytes: Bytes) | Fails(length: nat)

  datatype ProducerMessage = ProducerMessage(slot: Slot, key: Payload, value: Payload, headers: seq<Header>, timestamp: Time, sequence: int)

  const MAXIMUM_RECORD_OVERHEAD: nat := 36
  const HEADER_OVERHEAD: nat := 10

  // --------------------------------------------------------------------------- sizes

  function Length(o: Nullable<Bytes>): nat {
    if o.Null? then 0 else |o.value|
  }

  function HeadersSize(hs: seq<Header>): nat {
    if hs == [] then 0 else Length(hs[0].key) + Length(hs[0].value) + HEADER_OVERHEAD + HeadersSize(hs[1..])
  }

  function LengthOf(p: Payload): nat {
    match p case Absent => 0 case Encodes(b) => |b| case Fails(n) => n
  }

  function BytesOf(p: Payload): Nullable<Bytes> {
    if p.Encodes? then Val(p.bytes) else Null
  }

  function ByteSize(m: ProducerMessage): nat {
    MAXIMUM_RECORD_OVERHEAD + HeadersSize(m.headers) + LengthOf(m.key) + LengthOf(m.value)
  }

  /** The conservative size of a record. */
  function Estimate(r: Record): nat {
    MAXIMUM_RECORD_OVERHEAD + Length(r.key) + Length(r.value) + HeadersSize(r.headers)
  }

  function Estimates(rs: seq<Record>): nat {
    if rs == [] then 0 else Estimates(rs[..|rs| - 1]) + Estimate(rs[|rs| - 1])
  }

  // ----------------------------------------------------------- the estimate is an upper bound

  lemma SmallVarint(x: int)
    requires -1 <= x <= MAX_INT32
    ensures |PutVarint(x)| <= 5
  {
    var u := Zigzag(x);
    UvarintSize(u, 0xffff_ffff);
    assert |PutUvarint(0xffff_ffff)| == 5 by {
      assert PutUvarint(0xf) == [0xf];
      assert PutUvarint(0x7ff) == [0xff] + PutUvarint(0xf);
      assert PutUvarint(0x3_ffff) == [0xff] + PutUvarint(0x7ff);
      assert PutUvarint(0x1ff_ffff) == [0xff] + PutUvarint(0x3_ffff);
    }
  }

  lemma VarintBytesBound(o: Nullable<Bytes>)
    requires SmallBytes(o)
    ensures |Written(VarintBytes(o))| <= 5 + Length(o)
  {
    SmallVarint(if o.Null? then -1 else |o.value|);
    hide PutVarint;
  }

  lemma {:induction false} HeadersBound(hs: seq<Header>)
    requires forall i :: 0 <= i < |hs| ==> SmallBytes(hs[i].key) && SmallBytes(hs[i].value)
    ensures |WrittenAll(HeaderPrims(hs))| <= HeadersSize(hs)
  {
    hide Written, SmallBytes;
    if hs != [] {
      var h, more := hs[0], HeaderPrims(hs[1..]);
      VarintBytesBound(h.key);
      VarintBytesBound(h.value);
      HeadersBound(hs[1..]);
      assert HeaderPrims(hs) == [VarintBytes(h.key)] + ([VarintBytes(h.value)] + more);
      WrittenNext(VarintBytes(h.key), [VarintBytes(h.value)] + more, []);
      WrittenNext(VarintBytes(h.value), more, []);
      assert WrittenAll(HeaderPrims(hs)) + [] == WrittenAll(HeaderPrims(hs));
    }
  }

  /** A record as a produce set makes it: valid, and its offset within an int32. */
  predicate Sendable(r: Record) {
    ValidRecord(r) && 0 <= r.offsetDelta <= MAX_INT32
  }

  lemma BodyBound(r: Record)
    requires Sendable(r)
    ensures |RecordBody(r)| <= Estimate(r) - 5
  {
    var hs := HeaderPrims(r.headers);
    var ms := Quotient(r.timestampDelta, NANOS_PER_MILLI);
    MillisRoundTrip(r.timestampDelta);
    VarintRoundTrip(ms, []);
    SmallVarint(r.offsetDelta);
    SmallVarint(|r.headers|);
    VarintBytesBound(r.key);
    VarintBytesBound(r.value);
    HeadersBound(r.headers);
    WrittenNums(r.attributes, ms);
    WrittenNums(r.attributes, r.offsetDelta);
    WrittenNums(r.attributes, |r.headers|);
    hide Written, WrittenAll, PutVarint, PutInt, Fits, Quotient, ValidRecord;
    var p5 := [VarintNum(|r.headers|)] + hs;
    var p4 := [VarintBytes(r.value)] + p5;
    var p3 := [VarintBytes(r.key)] + p4;
    var p2 := [VarintNum(r.offsetDelta)] + p3;
    var p1 := [VarintNum(ms)] + p2;
    assert RecordPrims(r) == [Int8(r.attributes)] + p1;
    WrittenNext(Int8(r.attributes), p1, []);
    WrittenNext(VarintNum(ms), p2, []);
    WrittenNext(VarintNum(r.offsetDelta), p3, []);
    WrittenNext(VarintBytes(r.key), p4, []);
    WrittenNext(VarintBytes(r.value), p5, []);
    WrittenNext(VarintNum(|r.headers|), hs, []);
  }

  /** A record never takes more bytes than estimated. */
  lemma RecordBound(r: Record)
    requires Sendable(r)
    ensures |RecordBytes(r)| <= Estimate(r)
  {
    BodyBound(r);
    SmallVarint(|RecordBody(r)|);
    hide RecordBody, PutVarint, Estimate;
  }

  lemma {:induction false} RecordsSnoc(rs: seq<Record>, r: Record)
    ensures RecordsBytes(rs + [r]) == RecordsBytes(rs) + RecordBytes(r)
  {
    hide RecordBytes;
    if rs == [] {
      assert rs + [r] == [r] && [r][1..] == [];
      assert RecordsBytes([r]) == RecordBytes(r) + [];
    } else {
      assert (rs + [r])[1..] == rs[1..] + [r];
      RecordsSnoc(rs[1..], r);
    }
  }

  lemma {:induction false} RecordsBound(rs: seq<Record>)
    requires forall i :: 0 <= i < |rs| ==> Sendable(rs[i])
    ensures |RecordsBytes(rs)| <= Estimates(rs)
  {
    hide RecordBytes, Sendable, Estimate;
    if rs != [] {
      var n := |rs| - 1;
      RecordsBound(rs[..n]);
      RecordBound(rs[n]);
      RecordsSnoc(rs[..n], rs[n]);
      assert rs == rs[..n] + [rs[n]];
    }
  }

  /** An uncompressed batch takes at most twelve bytes more than the buffer count says. */
  lemma BatchBound(b: Batch, bufferBytes: int, comp: Compressor, crc: Crc)
    requires HasTimes(b) && (forall i :: 0 <= i < |b.records| ==> Sendable(b.records[i]))
    requires bufferBytes == RECORD_BATCH_OVERHEAD + Estimates(b.records)
    requires comp.deflate(b.codec % 8, RecordsBytes(b.records)) == RecordsBytes(b.records)
    ensures |BatchBytes(b, comp, crc)| <= bufferBytes + 12
  {
    hide RecordsBytes, Sendable, Estimates, BytesWith, Millis;
    RecordsBound(b.records);
    OverheadExact(b, Millis(b.firstTimestamp).value, Millis(b.maxTimestamp).value, RecordsBytes(b.records), crc);
  }

  // ------------------------------------------------------------------------------ sums

  type Sizes = map<Slot, int>

  ghost function Sum(ks: set<Slot>, sizes: Sizes): int
    requires ks <= sizes.Keys
  {
    if ks == {} then 0 else var k :| k in ks; sizes[k] + Sum(ks - {k}, sizes)
  }

  lemma {:induction false} SumFromAny(ks: set<Slot>, sizes: Sizes, x: Slot)
    requires ks <= sizes.Keys && x in ks
    ensures Sum(ks, sizes) == sizes[x] + Sum(ks - {x}, sizes)
    decreases ks
  {
    var k :| k in ks && Sum(ks, sizes) == sizes[k] + Sum(ks - {k}, sizes);
    if k != x {
      SumFromAny(ks - {k}, sizes, x);
      SumFromAny(ks - {x}, sizes, k);
      assert ks - {k} - {x} == ks - {x} - {k};
    }
  }

  lemma {:induction false} SumsAgree(ks: set<Slot>, a: Sizes, b: Sizes)
    requires ks <= a.Keys && ks <= b.Keys && forall k :: k in ks ==> a[k] == b[k]
    ensures Sum(ks, a) == Sum(ks, b)
    decreases ks
  {
    if ks != {} {
      var k :| k in ks;
      SumFromAny(ks, a, k);
      SumFromAny(ks, b, k);
      SumsAgree(ks - {k}, a, b);
    }
  }

  /** Setting one size changes the sum by the difference; a missing one counted nothing. */
  lemma SumSet(a: Sizes, k: Slot, v: int)
    ensures Sum((a[k := v]).Keys, a[k := v]) == Sum(a.Keys, a) + v - if k in a then a[k] else 0
  {
    hide Sum;
    var b := a[k := v];
    SumFromAny(b.Keys, b, k);
    assert b.Keys - {k} == a.Keys - {k};
    SumsAgree(a.Keys - {k}, a, b);
    if k in a { SumFromAny(a.Keys, a, k); } else { assert a.Keys - {k} == a.Keys; }
  }

  lemma SumDrop(a: Sizes, k: Slot)
    requires k in a
    ensures Sum((a - {k}).Keys, a - {k}) == Sum(a.Keys, a) - a[k]
  {
    hide Sum;
    var b := a - {k};
    SumFromAny(a.Keys, a, k);
    assert b.Keys == a.Keys - {k};
    SumsAgree(b.Keys, a, b);
  }

  // ---------------------------------------------------------------------------- the object

  /** Messages of one partition and the records made from them; `first` is the batch's timestamp. */
  datatype PartitionSet = PartitionSet(msgs: seq<ProducerMessage>, records: seq<Record>, first: int, firstSequence: int, bufferBytes: int)

  /** The record carries the message. */
  predicate Carries(r: Record, m: ProducerMessage) {
    r.key == BytesOf(m.key) && r.value == BytesOf(m.value) && r.headers == m.headers && !m.key.Fails? && !m.value.Fails?
  }

  /** `time` is the moment `ns`, rounded down to a whole millisecond. */
  predicate WholeMilli(time: int, ns: int) {
    time % 1_000_000 == 0 && time <= ns < time + 1_000_000
  }

  /** In a batch that begins at `first`, the record has the time the message was given, if it was. */
  predicate OnTime(first: int, r: Record, m: ProducerMessage) {
    m.timestamp.Unix? ==> WholeMilli(first + r.timestampDelta, m.timestamp.ns)
  }

  /** Messages and records correspond index by index, and the buffer count is the batch overhead plus
      the estimates of the records. */
  ghost predicate Aligned(p: PartitionSet) {
    && p.msgs != [] && |p.records| == |p.msgs| && (forall i :: 0 <= i < |p.msgs| ==> Carries(p.records[i], p.msgs[i]))
    && (forall i :: 0 <= i < |p.msgs| ==> OnTime(p.first, p.records[i], p.msgs[i]))
    && p.bufferBytes == RECORD_BATCH_OVERHEAD + Estimates(p.records)
  }

  function ByteSizes(sets: map<Slot, PartitionSet>): Sizes {
    map k | k in sets :: sets[k].bufferBytes
  }

  function Counts(sets: map<Slot, PartitionSet>): Sizes {
    map k | k in sets :: |sets[k].msgs|
  }

  /** Nanoseconds, rounded down to a whole millisecond. */
  function Truncate(ns: int): int {
    ns - ns % NANOS_PER_MILLI
  }

  /** The time a message is sent with. */
  function Stamp(m: ProducerMessage, now: int): int {
    Truncate(if m.timestamp.Zero? then now else m.timestamp.ns)
  }

  /** A partition before its first message: the batch takes that message's time and sequence number. */
  function NewPartition(m: ProducerMessage, now: int, idempotent: bool): PartitionSet {
    PartitionSet([], [], Stamp(m, now), if idempotent then m.sequence else 0, 0)
  }

  /** A partition with one more message and its record; the first also pays for the batch. */
  function Extended(p: PartitionSet, m: ProducerMessage, now: int): PartitionSet {
    var r := Record(0, Stamp(m, now) - p.first, 0, BytesOf(m.key), BytesOf(m.value), m.headers);
    p.(msgs := p.msgs + [m], records := p.records + [r],
       bufferBytes := p.bufferBytes + Estimate(r) + if p.msgs == [] then RECORD_BATCH_OVERHEAD else 0)
  }

  /** What checking for overflow before each message keeps: partitions of more than one message stay
      below the limit for a batch, sets of more than one message below the limits for a request. */
  ghost predicate Within(sets: map<Slot, PartitionSet>, bufferBytes: int, bufferCount: int, limits: Limits) {
    && (forall k :: k in sets && |sets[k].msgs| > 1 ==> sets[k].bufferBytes < limits.maxMessageBytes)
    && (bufferCount > 1 ==> bufferBytes < limits.maxRequestSize - 10 * 1024 + RECORD_BATCH_OVERHEAD)
    && (limits.maxMessages > 0 ==> bufferCount <= limits.maxMessages)
  }

  datatype Limits = Limits(maxRequestSize: int, maxMessageBytes: int, maxMessages: int)

  class ProduceSet {
    const idempotent: bool
    var sets: map<Slot, PartitionSet>
    var bufferBytes: int
    var bufferCount: int

    constructor (idempotent: bool)
      ensures Valid() && sets == map[] && this.idempotent == idempotent && bufferBytes == 0 && bufferCount == 0
    {
      this.idempotent, sets, bufferBytes, bufferCount := idempotent, map[], 0, 0;
    }

    /** Accounting: the counts are the sums over the partitions, and every partition is aligned. */
    ghost predicate Valid()
      reads this
    {
      && (forall k :: k in sets ==> Aligned(sets[k]))
      && (forall k :: k in sets ==> sets[k].msgs != [] && sets[k].firstSequence == if idempotent then sets[k].msgs[0].sequence else 0)
      && bufferBytes == Sum(ByteSizes(sets).Keys, ByteSizes(sets))
      && bufferCount == Sum(Counts(sets).Keys, Counts(sets))
    }

    /** Adds a message; `now` is the time it gets when it has none. Refused, with nothing changed, when
        its key or value does not encode or, for an idempotent producer, it is out of sequence. */
    method Add(m: ProducerMessage, now: int) returns (ok: bool)
      requires Valid()
      modifies this
      ensures Valid()
      ensures ok <==> !m.key.Fails? && !m.value.Fails?
                      && !(idempotent && m.slot in old(sets) && m.sequence < old(sets)[m.slot].firstSequence)
      ensures !ok ==> unchanged(this)
      ensures ok ==>
                var p := if m.slot in old(sets) then old(sets)[m.slot] else NewPartition(m, now, idempotent);
                sets == old(sets)[m.slot := Extended(p, m, now)]
                && bufferCount == old(bufferCount) + 1
                && bufferBytes == old(bufferBytes) + ByteSize(m) + if m.slot in old(sets) then 0 else RECORD_BATCH_OVERHEAD
      ensures ok ==>
                var q := sets[m.slot];
                && q.msgs == (if m.slot in old(sets) then old(sets)[m.slot].msgs else []) + [m]
                && WholeMilli(q.first + q.records[|q.records| - 1].timestampDelta, if m.timestamp.Zero? then now else m.timestamp.ns)
                && (if m.slot in old(sets) then q.first == old(sets)[m.slot].first else q.records[0].timestampDelta == 0)
    {
      hide Sum, Aligned, Extended, WholeMilli;
      if m.key.Fails? || m.value.Fails? { return false; }
      var p, size;
      if m.slot in sets { p, size := sets[m.slot], 0; }
      else { p, size := NewPartition(m, now, idempotent), RECORD_BATCH_OVERHEAD; }
      if idempotent && m.sequence < p.firstSequence { return false; }
      var q := Append(p, m, now, size, m.slot in sets);
      Store(m.slot, q, q.bufferBytes - p.bufferBytes);
      ok := true;
    }

    /** The partition with one more message, and its record. */
    static method Append(p: PartitionSet, m: ProducerMessage, now: int, overhead: nat, ghost present: bool) returns (q: PartitionSet)
      requires !m.key.Fails? && !m.value.Fails? && overhead == if present then 0 else RECORD_BATCH_OVERHEAD
      requires if present then Aligned(p) else p.msgs == [] && p.records == [] && p.bufferBytes == 0 && p.first == Stamp(m, now)
      ensures q == Extended(p, m, now) && Aligned(q) && q.msgs == p.msgs + [m] && q.first == p.first && q.firstSequence == p.firstSequence
      ensures q.bufferBytes == p.bufferBytes + ByteSize(m) + overhead
      ensures WholeMilli(q.first + q.records[|q.records| - 1].timestampDelta, if m.timestamp.Zero? then now else m.timestamp.ns)
      ensures !present ==> q.records[0].timestampDelta == 0
    {
      hide Estimates, HeadersSize;
      var key, value := BytesOf(m.key), BytesOf(m.value);
      var time := Truncate(if m.timestamp.Zero? then now else m.timestamp.ns);
      TruncateRounds(if m.timestamp.Zero? then now else m.timestamp.ns);
      hide Truncate, WholeMilli;
      var r := Record(0, time - p.first, 0, key, value, m.headers);
      var size := overhead + MAXIMUM_RECORD_OVERHEAD + Length(key) + Length(value) + HeadersSize(m.headers);
      q := p.(msgs := p.msgs + [m], records := p.records + [r], bufferBytes := p.bufferBytes + size);
      AppendAligned(p, q, m, r, present);
    }

    method Store(slot: Slot, q: PartitionSet, size: int)
      requires Valid() && Aligned(q) && q.msgs != [] && q.firstSequence == if idempotent then q.msgs[0].sequence else 0
      requires if slot in sets then |q.msgs| == |sets[slot].msgs| + 1 && q.bufferBytes == sets[slot].bufferBytes + size
               else |q.msgs| == 1 && q.bufferBytes == size
      modifies this
      ensures Valid() && sets == old(sets)[slot := q] && bufferBytes == old(bufferBytes) + size && bufferCount == old(bufferCount) + 1
    {
      hide Sum, Aligned;
      ghost var was := sets;
      sets := sets[slot := q];
      bufferBytes := bufferBytes + size;
      bufferCount := bufferCount + 1;
      assert ByteSizes(sets) == ByteSizes(was)[slot := q.bufferBytes];
      assert Counts(sets) == Counts(was)[slot := |q.msgs|];
      SumSet(ByteSizes(was), slot, q.bufferBytes);
      SumSet(Counts(was), slot, |q.msgs|);
    }

    /** Takes a partition's messages out again. */
    method DropPartition(slot: Slot) returns (msgs: seq<ProducerMessage>)
      requires Valid()
      modifies this
      ensures Valid() && sets == old(sets) - {slot}
      ensures msgs == if slot in old(sets) then old(sets)[slot].msgs else []
      ensures bufferCount == old(bufferCount) - |msgs|
    {
      hide Sum, Aligned;
      if slot !in sets { assert sets == sets - {slot}; return []; }
      var p := sets[slot];
      ghost var was := sets;
      bufferBytes := bufferBytes - p.bufferBytes;
      bufferCount := bufferCount - |p.msgs|;
      sets := sets - {slot};
      msgs := p.msgs;
      assert ByteSizes(sets) == ByteSizes(was) - {slot} && Counts(sets) == Counts(was) - {slot};
      SumDrop(ByteSizes(was), slot);
      SumDrop(Counts(was), slot);
    }

    /** Numbers the records of every partition from zero and gives the batches to send. */
    method BuildRequest(b: Batch) returns (req: map<Slot, Batch>)
      requires Valid()
      modifies this`sets
      ensures Valid() && sets.Keys == old(sets).Keys && req.Keys == sets.Keys
      ensures forall k :: k in sets ==> sets[k].msgs == old(sets)[k].msgs && sets[k].bufferBytes == old(sets)[k].bufferBytes
      ensures forall k :: k in sets ==> IsRequestFor(req[k], sets[k]) && SameTerms(req[k], b)
    {
      hide Sum, Aligned, IsRequestFor, SameTerms;
      req := map[];
      var left := sets.Keys;
      while left != {}
        invariant left <= sets.Keys == old(sets).Keys && req.Keys == sets.Keys - left && Valid()
        invariant forall k :: k in sets ==> sets[k].msgs == old(sets)[k].msgs && sets[k].bufferBytes == old(sets)[k].bufferBytes
        invariant forall k :: k in req ==> IsRequestFor(req[k], sets[k]) && SameTerms(req[k], b)
        decreases left
      {
        var k :| k in left;
        left := left - {k};
        var one := NumberPartition(k, b);
        req := req[k := one];
      }
    }

    method NumberPartition(k: Slot, b: Batch) returns (r: Batch)
      requires Valid() && k in sets
      modifies this`sets
      ensures Valid() && k in sets && sets == old(sets)[k := old(sets)[k].(records := sets[k].records)] && IsRequestFor(r, sets[k]) && SameTerms(r, b)
    {
      hide Sum, Aligned, IsRequestFor;
      var p := sets[k];
      var rs := Numbered(p.records);
      r := RequestBatch(b, p, rs);
      NumberedAligned(b, p, rs);
      ghost var was := sets;
      sets := sets[k := p.(records := rs)];
      assert ByteSizes(sets) == ByteSizes(was) && Counts(sets) == Counts(was);
    }

    /** Whether another message would be too much. */
    predicate WouldOverflow(m: ProducerMessage, limits: Limits)
      reads this
    {
      || bufferBytes + ByteSize(m) >= limits.maxRequestSize - 10 * 1024
      || (m.slot in sets && sets[m.slot].bufferBytes + ByteSize(m) >= limits.maxMessageBytes)
      || (limits.maxMessages > 0 && bufferCount >= limits.maxMessages)
    }
  }

  /** The partitions after the message has been added, if it is. */
  function Adding(sets: map<Slot, PartitionSet>, m: ProducerMessage, now: int, idempotent: bool): map<Slot, PartitionSet> {
    sets[m.slot := Extended(if m.slot in sets then sets[m.slot] else NewPartition(m, now, idempotent), m, now)]
  }

  /** A broker producer takes a message: when it would be too much for the set being filled, that one
      is passed on and the message goes, without asking again, into a new one. */
  method TakeMessage(ps: ProduceSet, m: ProducerMessage, now: int, limits: Limits) returns (buffer: ProduceSet, rolled: bool, ok: bool)
    requires ps.Valid() && Within(ps.sets, ps.bufferBytes, ps.bufferCount, limits)
    modifies ps
    ensures buffer.Valid() && Within(buffer.sets, buffer.bufferBytes, buffer.bufferCount, limits) && buffer.idempotent == ps.idempotent
    ensures rolled <==> || old(ps.bufferBytes) + ByteSize(m) >= limits.maxRequestSize - 10240
                        || (m.slot in old(ps.sets) && old(ps.sets)[m.slot].bufferBytes + ByteSize(m) >= limits.maxMessageBytes)
                        || (limits.maxMessages > 0 && old(ps.bufferCount) >= limits.maxMessages)
    ensures if rolled then fresh(buffer) && unchanged(ps) else buffer == ps
    ensures var held := if rolled then map[] else old(ps.sets);
            && (ok <==> !m.key.Fails? && !m.value.Fails? && !(ps.idempotent && m.slot in held && m.sequence < held[m.slot].firstSequence))
            && buffer.sets == if ok then Adding(held, m, now, ps.idempotent) else held
  {
    hide Sum, Estimates, HeadersSize;
    rolled, buffer := ps.WouldOverflow(m, limits), ps;
    if rolled { buffer := new ProduceSet(ps.idempotent); }
    ExtendedSize(if m.slot in buffer.sets then buffer.sets[m.slot] else NewPartition(m, now, ps.idempotent), m, now, m.slot in buffer.sets);
    ok := buffer.Add(m, now);
  }

  lemma ExtendedSize(p: PartitionSet, m: ProducerMessage, now: int, present: bool)
    requires present ==> p.msgs != []
    ensures !m.key.Fails? && !m.value.Fails? && present ==> Extended(p, m, now).bufferBytes == p.bufferBytes + ByteSize(m)
    ensures |Extended(p, m, now).msgs| == |p.msgs| + 1
  {
  }

  lemma TruncateRounds(ns: int)
    ensures WholeMilli(Truncate(ns), ns)
  {
  }

  lemma AppendAligned(p: PartitionSet, q: PartitionSet, m: ProducerMessage, r: Record, present: bool)
    requires if present then Aligned(p) else p.msgs == [] && p.records == [] && p.bufferBytes == 0
    requires Carries(r, m) && OnTime(p.first, r, m) && q.first == p.first && q.msgs == p.msgs + [m] && q.records == p.records + [r]
    requires q.bufferBytes == p.bufferBytes + Estimate(r) + if present then 0 else RECORD_BATCH_OVERHEAD
    ensures Aligned(q) && Estimate(r) == ByteSize(m)
  {
    assert q.records[..|q.records| - 1] == p.records;
  }

  /** The batch holds the partition's messages in order, the record of the i-th with offset i. So the
      offset reported for it, the base offset plus i, is that of its record. */
  ghost predicate IsRequestFor(b: Batch, p: PartitionSet) {
    && b.records == p.records && |b.records| == |p.msgs| && b.lastOffsetDelta == |p.msgs| - 1
    && b.version == 2 && b.firstTimestamp == Unix(p.first) && b.maxTimestamp == Zero
    && (forall i :: 0 <= i < |p.msgs| ==> b.records[i].offsetDelta == i && Carries(b.records[i], p.msgs[i]))
    && (forall i :: 0 <= i < |p.msgs| ==> OnTime(b.firstTimestamp.ns, b.records[i], p.msgs[i])) && b.firstSequence == p.firstSequence
    && p.bufferBytes == RECORD_BATCH_OVERHEAD + Estimates(b.records)
  }

  /** What a batch is sent with, whatever is in it. */
  predicate SameTerms(a: Batch, b: Batch) {
    a.codec == b.codec && a.producerID == b.producerID && a.producerEpoch == b.producerEpoch && a.transactional == b.transactional
  }

  method Numbered(rs: seq<Record>) returns (r: seq<Record>)
    ensures |r| == |rs| && forall i :: 0 <= i < |rs| ==> r[i] == rs[i].(offsetDelta := i)
  {
    r := rs;
    for i := 0 to |rs|
      invariant |r| == |rs|
      invariant forall k :: 0 <= k < |rs| ==> r[k] == if k < i then rs[k].(offsetDelta := k) else rs[k]
    {
      r := r[i := r[i].(offsetDelta := i)];
    }
  }

  lemma {:induction false} SameEstimates(a: seq<Record>, b: seq<Record>)
    requires |a| == |b| && forall i :: 0 <= i < |a| ==> a[i].key == b[i].key && a[i].value == b[i].value && a[i].headers == b[i].headers
    ensures Estimates(a) == Estimates(b)
  {
    if a != [] { SameEstimates(a[..|a| - 1], b[..|b| - 1]); }
  }

  function RequestBatch(b: Batch, p: PartitionSet, rs: seq<Record>): Batch {
    b.(version := 2, firstTimestamp := Unix(p.first), maxTimestamp := Zero, firstSequence := p.firstSequence,
       lastOffsetDelta := |rs| - 1, records := rs)
  }

  lemma NumberedAligned(b: Batch, p: PartitionSet, rs: seq<Record>)
    requires Aligned(p) && |rs| == |p.records| && forall i :: 0 <= i < |rs| ==> rs[i] == p.records[i].(offsetDelta := i)
    ensures var q := p.(records := rs); Aligned(q) && IsRequestFor(RequestBatch(b, p, rs), q)
  {
    SameEstimates(p.records, rs);
    hide Estimates;
  }

  /** The batch of a request, sent without compression, takes at most twelve bytes more than the
      partition's buffer count. */
  lemma RequestBound(b: Batch, p: PartitionSet, comp: Compressor, crc: Crc)
    requires IsRequestFor(b, p) && p.first >= 0 && (forall i :: 0 <= i < |b.records| ==> Sendable(b.records[i]))
    requires comp.deflate(b.codec % 8, RecordsBytes(b.records)) == RecordsBytes(b.records)
    ensures HasTimes(b) && |BatchBytes(b, comp, crc)| <= p.bufferBytes + 12
  {
    hide RecordsBytes, Sendable, Estimates, BatchBytes;
    BatchBound(b, p.bufferBytes, comp, crc);
  }
}
