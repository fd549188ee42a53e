/** From the bytes of a partition's log to what the user sees: responses hold a stretch of the encoded
    log, cut off anywhere, are decoded, and are then consumed. */
module FetchedBytes {
  import Wire
  import Encoding
  import RecordCodec
  import BatchCodec
  import LegacyCodec
  import Truncation
  import opened FetchModel
  import opened ReadCommitted
  import opened ReadCommittedRun

  // ------------------------------------------------------------------ decoded, as consumed

  /** What a control record says, if it can be read. */
  datatype Marker = Aborts | Commits | SaysOther | Unreadable

  /** What consuming depends on but does not look into: the contents of records and messages, for which
      any number may stand, and of control records. */
  datatype Sight = Sight(tag: RecordCodec.Record -> int, message: LegacyCodec.MessageBlock -> int, marker: BatchCodec.Batch -> Marker)

  function SeenPurpose(b: BatchCodec.Batch, v: Sight): Purpose {
    if !b.control then UserData
    else match v.marker(b) case Aborts => Abort case Commits => Commit case SaysOther => Unknown case Unreadable => Damaged
  }

  function SeenRecords(rs: seq<RecordCodec.Record>, v: Sight): seq<Record> {
    seq(|rs|, i requires 0 <= i < |rs| => Record(rs[i].offsetDelta, v.tag(rs[i])))
  }

  function Seen(b: BatchCodec.Batch, v: Sight): Batch {
    Batch(b.firstOffset, b.lastOffsetDelta, b.producerID, b.transactional, SeenPurpose(b, v), SeenRecords(b.records, v))
  }

  /** Nothing consuming depends on is lost: every record at its offset, the producer, whether the batch is
      transactional, and whether it is data or a marker. */
  lemma SeenIs(b: BatchCodec.Batch, v: Sight, i: nat)
    requires i < |b.records|
    ensures |Seen(b, v).records| == |b.records| && Seen(b, v).first + Seen(b, v).records[i].delta == b.firstOffset + b.records[i].offsetDelta
    ensures Seen(b, v).producer == b.producerID && Seen(b, v).txn == b.transactional && Last(Seen(b, v)) == b.firstOffset + b.lastOffsetDelta
    ensures (Seen(b, v).purpose == UserData <==> !b.control) && (Seen(b, v).purpose == Abort <==> b.control && v.marker(b) == Aborts)
  {
  }

  function SeenMessages(ms: seq<LegacyCodec.MessageBlock>, v: Sight): seq<LegacyMessage> {
    seq(|ms|, i requires 0 <= i < |ms| => LegacyMessage(ms[i].offset, ms[i].msg.version, v.message(ms[i])))
  }

  /** A block by itself, or the set it wraps. */
  function SeenBlocks(ms: seq<LegacyCodec.MessageBlock>, v: Sight): seq<LegacyBlock> {
    seq(|ms|, i requires 0 <= i < |ms| =>
      LegacyBlock(ms[i].offset, SeenMessages(if ms[i].msg.inner.Val? then ms[i].msg.inner.value else [ms[i]], v)))
  }

  /** A batch that was cut off has no records. */
  function SeenSet(r: Truncation.RecordSet, v: Sight): Records {
    match r
    case Legacy(set') => Records.Legacy(SeenBlocks(set'.messages, v))
    case Default(d) => Records.Default(Seen(if d.Whole? then d.batch else d.batch.(records := []), v))
  }

  function SeenSets(sets: seq<Truncation.RecordSet>, v: Sight): seq<Records> {
    seq(|sets|, i requires 0 <= i < |sets| => SeenSet(sets[i], v))
  }

  function SeenBlock(b: Truncation.FetchBlock, highWaterMark: int, aborted: seq<AbortedTxn>, v: Sight): Block {
    Block(false, Truncation.IsPartial(b), if b.lastOffset.Val? then Some(b.lastOffset.value) else None, highWaterMark, aborted, SeenSets(b.sets, v))
  }

  function SeenLog(log: seq<BatchCodec.Batch>, v: Sight): (l: seq<Batch>)
    ensures |l| == |log| && forall i :: 0 <= i < |log| ==> l[i] == Seen(log[i], v)
  {
    seq(|log|, i requires 0 <= i < |log| => Seen(log[i], v))
  }

  lemma {:induction false} SameCount(sets: seq<Truncation.RecordSet>, v: Sight)
    ensures NumRecords(SeenSets(sets, v)) == Truncation.TotalRecords(sets)
  {
    if sets != [] {
      SameCount(sets[1..], v);
      assert SeenSets(sets, v)[1..] == SeenSets(sets[1..], v);
    }
  }

  /** Whole batches are seen as a response carries them. */
  lemma {:induction false} CarriedAreSeen(log: seq<BatchCodec.Batch>, v: Sight, i: nat, j: nat)
    requires i <= j <= |log| && forall k :: 0 <= k < |log| ==> log[k].records != []
    ensures SeenSets(Truncation.Wholes(log[i..j]), v) == Carried(SeenLog(log, v), i, j)
    decreases j - i
  {
    if i < j {
      CarriedAreSeen(log, v, i + 1, j);
      assert log[i..j][0] == log[i] && log[i..j][1..] == log[i + 1..j];
      var one := Truncation.Default(BatchCodec.Whole(log[i]));
      var more := Truncation.Wholes(log[i + 1..j]);
      assert Truncation.Wholes(log[i..j]) == [one] + more;
      assert SeenSets([one] + more, v) == [SeenSet(one, v)] + SeenSets(more, v);
    } else {
      assert log[i..j] == [];
    }
  }

  // --------------------------------------------------------------------------- one response

  /** Where a fetch at `off` begins. */
  ghost predicate BeginsAt(log: seq<Batch>, off: int, i: nat) {
    && i <= |log| && (forall k :: 0 <= k < i ==> Last(log[k]) < off) && (forall k :: i <= k < |log| ==> off <= Last(log[k]))
  }

  /** A broker may send batches i up to m with this list of aborted transactions. */
  ghost predicate MaySend(log: seq<Batch>, starts: seq<int>, rc: bool, aborted: seq<AbortedTxn>, i: nat, m: nat) {
    && |starts| == |log| && i <= m <= |log|
    && (rc && i < m ==> Listed(log, starts, aborted, i, Last(log[m - 1])))
    && (rc ==> forall k :: i <= k < m && log[k].purpose == UserData && log[k].txn ==> EndOf(log, k, log[k].producer) < |log|)
  }

  ghost predicate AllPlain(log: seq<BatchCodec.Batch>, env: Truncation.Env) {
    Truncation.AllPlain(log, env)
  }

  /** The bytes of batches i up to m. */
  ghost function Stretch(log: seq<BatchCodec.Batch>, env: Truncation.Env, i: nat, m: nat): Wire.Bytes
    requires AllPlain(log, env) && i <= m <= |log|
  {
    Truncation.Stream(log[i..m], env)
  }

  /** The block decoded from the first k of them. */
  ghost function Decoded(log: seq<BatchCodec.Batch>, env: Truncation.Env, i: nat, m: nat, k: nat): Encoding.Nullable<Truncation.FetchBlock>
    requires AllPlain(log, env) && i <= m <= |log| && k <= |Stretch(log, env, i, m)|
  {
    Truncation.Scan(Stretch(log, env, i, m)[..k], [], Encoding.Null, env)
  }

  /** The response is decoded from the first k bytes of batches i up to m. */
  ghost predicate FromBytes(log: seq<BatchCodec.Batch>, env: Truncation.Env, v: Sight, starts: seq<int>, off: int, rc: bool, r: Response,
                            i: nat, m: nat, k: nat)
    requires AllPlain(log, env)
  {
    && r.Found? && BeginsAt(SeenLog(log, v), off, i) && MaySend(SeenLog(log, v), starts, rc, r.block.aborted, i, m)
    && k <= |Stretch(log, env, i, m)| && Decoded(log, env, i, m, k).Val?
    && r.block == SeenBlock(Decoded(log, env, i, m, k).value, r.block.highWaterMark, r.block.aborted, v)
  }

  lemma FewerListed(log: seq<Batch>, starts: seq<int>, aborted: seq<AbortedTxn>, i: nat, j: nat, m: nat)
    requires WellFormedLog(log) && |starts| == |log| && i < j <= m <= |log| && Listed(log, starts, aborted, i, Last(log[m - 1]))
    ensures Listed(log, starts, aborted, i, Last(log[j - 1]))
  {
    assert Last(log[j - 1]) <= Last(log[m - 1]) by { if j < m { assert Last(log[j - 1]) < log[m - 1].first; } }
  }

  lemma WholeAnswers(log: seq<Batch>, starts: seq<int>, off: int, rc: bool, b: Block, i: nat, j: nat, m: nat)
    requires WellFormedLog(log) && BeginsAt(log, off, i) && MaySend(log, starts, rc, b.aborted, i, m) && i <= j <= m
    requires !b.failed && b.sets == Carried(log, i, j) && (NumRecords(b.sets) == 0 ==> i == j && b.lastBatchOffset.None?)
    ensures Answers(log, starts, off, rc, b, i, j)
  {
    hide Listed, WellFormedLog, Carried, NumRecords;
    if rc && i < j { FewerListed(log, starts, b.aborted, i, j, m); }
  }

  lemma CarriesSome(log: seq<Batch>, i: nat, j: nat)
    requires i < j <= |log| && log[i].records != []
    ensures NumRecords(Carried(log, i, j)) != 0
  {
    NothingCarried(log, i, j);
  }

  /** Decoding never fails, wherever the bytes end. What is decoded is nothing yet, the complete
      batches, or a part of the first. */
  lemma DecodedAs(log: seq<BatchCodec.Batch>, env: Truncation.Env, i: nat, m: nat, k: nat) returns (j: nat)
    requires AllPlain(log, env) && i <= m <= |log| && k <= |Stretch(log, env, i, m)|
    ensures var b := Decoded(log, env, i, m, k);
            && b.Val? && i <= j <= m
            && (|| (Truncation.IsPartial(b.value) && Truncation.TotalRecords(b.value.sets) == 0)
                || (b.value.sets == Truncation.Wholes(log[i..j]) && (i == j ==> b.value.lastOffset.Null?)))
  {
    hide Truncation.Stream, Truncation.Plain, Truncation.IsPartial, Truncation.TotalRecords, Truncation.Scan, BatchCodec.HasTimes;
    var bs := log[i..m];
    Truncation.TruncatedFetch(bs, k, env);
    var n := Truncation.Complete(bs, k, env);
    if k == 0 {
      j := i;
      assert Stretch(log, env, i, m)[..k] == [] && log[i..j] == [];
      NothingDecoded(env);
    } else {
      j := i + n;
      assert bs[..n] == log[i..j];
    }
  }

  lemma NothingDecoded(env: Truncation.Env)
    ensures Truncation.Scan([], [], Encoding.Null, env) == Encoding.Val(Truncation.FetchBlock([], false, Encoding.Null))
  {
  }

  /** A response decoded from a stretch of the log, cut off anywhere, is one a broker may give. */
  lemma BytesAreHonest(log: seq<BatchCodec.Batch>, env: Truncation.Env, v: Sight, starts: seq<int>, pos: Position, conf: Config, r: Response,
                       i: nat, m: nat, k: nat)
    requires AllPlain(log, env) && WellFormedLog(SeenLog(log, v))
    requires FromBytes(log, env, v, starts, pos.offset, conf.readCommitted, r, i, m, k)
    ensures Honest(conf, SeenLog(log, v), starts, pos, r)
  {
    MaySendWithin(SeenLog(log, v), starts, conf.readCommitted, r.block.aborted, i, m);
    hide AllPlain, WellFormedLog, BeginsAt, MaySend, Decoded, Stretch, Truncation.IsPartial, Truncation.TotalRecords,
      Truncation.Wholes, Carried, NumRecords, Seen, SeenSets, Answers;
    var l := SeenLog(log, v);
    var j := DecodedAs(log, env, i, m, k);
    var b := Decoded(log, env, i, m, k).value;
    SameCount(b.sets, v);
    if !CutOff(r.block) {
      HaveRecords(log, env);
      CarriedAreSeen(log, v, i, j);
      if i < j { assert l[i].records != [] by { RecordsSeen(log, v, i); } CarriesSome(l, i, j); }
      WholeAnswers(l, starts, pos.offset, conf.readCommitted, r.block, i, j, m);
    }
  }

  lemma MaySendWithin(log: seq<Batch>, starts: seq<int>, rc: bool, aborted: seq<AbortedTxn>, i: nat, m: nat)
    requires MaySend(log, starts, rc, aborted, i, m)
    ensures i <= m <= |log|
  {
  }

  lemma RecordsSeen(log: seq<BatchCodec.Batch>, v: Sight, i: nat)
    requires i < |log| && log[i].records != []
    ensures SeenLog(log, v)[i].records != []
  {
  }

  lemma HaveRecords(log: seq<BatchCodec.Batch>, env: Truncation.Env)
    requires AllPlain(log, env)
    ensures forall k :: 0 <= k < |log| ==> log[k].records != []
  {
  }

  // ------------------------------------------------------------------------------- a run

  /** A response that never came to a block, or one decoded from bytes of the log. */
  ghost predicate Delivered(log: seq<BatchCodec.Batch>, env: Truncation.Env, v: Sight, starts: seq<int>, pos: Position, conf: Config, r: Response)
    requires AllPlain(log, env)
  {
    || r.Throttled? || r.Missing? || r.block.failed
    || exists i, m, k :: FromBytes(log, env, v, starts, pos.offset, conf.readCommitted, r, i, m, k)
  }

  ghost predicate DeliveredRun(log: seq<BatchCodec.Batch>, env: Truncation.Env, v: Sight, starts: seq<int>, pos: Position, conf: Config, rs: seq<Response>)
    requires AllPlain(log, env)
    decreases rs
  {
    rs == [] || (Delivered(log, env, v, starts, pos, conf, rs[0])
                 && DeliveredRun(log, env, v, starts, ParseResponse(conf, pos, rs[0]).1, conf, rs[1..]))
  }

  lemma {:induction false} DeliveredIsHonest(log: seq<BatchCodec.Batch>, env: Truncation.Env, v: Sight, starts: seq<int>, pos: Position, conf: Config, rs: seq<Response>)
    requires AllPlain(log, env) && WellFormedLog(SeenLog(log, v)) && DeliveredRun(log, env, v, starts, pos, conf, rs)
    ensures HonestRun(conf, SeenLog(log, v), starts, pos, rs)
    decreases rs
  {
    hide AllPlain, WellFormedLog, FromBytes, Answers, ParseResponse;
    if rs != [] {
      var r := rs[0];
      if !(r.Throttled? || r.Missing? || r.block.failed) {
        var i, m, k :| FromBytes(log, env, v, starts, pos.offset, conf.readCommitted, r, i, m, k);
        BytesAreHonest(log, env, v, starts, pos, conf, r, i, m, k);
      }
      DeliveredIsHonest(log, env, v, starts, ParseResponse(conf, pos, r).1, conf, rs[1..]);
    }
  }

  /** From bytes to messages: however the bytes of the encoded log are cut into responses, what is
      handed out is what the log makes visible from the starting offset up to the consumer's offset,
      but for the offsets skipped for a batch too large to fetch. */
  lemma BytesToUser(log: seq<BatchCodec.Batch>, env: Truncation.Env, v: Sight, starts: seq<int>, pos: Position, conf: Config, rs: seq<Response>)
    requires AllPlain(log, env) && WellFormedLog(SeenLog(log, v)) && WellFormedIndex(SeenLog(log, v), starts)
    requires DeliveredRun(log, env, v, starts, pos, conf, rs)
    ensures var (ms, end) := Consume(conf, pos, rs);
            ReadBut(SeenLog(log, v), pos.offset, end.offset, conf.readCommitted, Skipped(conf, pos, rs), ms)
  {
    hide AllPlain, WellFormedLog, WellFormedIndex, ReadBut;
    DeliveredIsHonest(log, env, v, starts, pos, conf, rs);
    ReadsWhatIsVisible(conf, SeenLog(log, v), starts, pos, rs);
  }
}
