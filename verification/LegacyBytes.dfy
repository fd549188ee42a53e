/** From the bytes of a log of uncompressed legacy messages, cut off anywhere, to what the user sees. */
module LegacyBytes {
  import Wire
  import Encoding
  import LegacyCodec
  import Truncation
  import LegacyTruncation
  import opened FetchModel
  import opened ReadCommittedRun
  import opened LegacyRead
  import opened FetchedBytes

  /** The messages as consumed: each at the offset it has in the log. */
  function Groups(log: seq<LegacyCodec.MessageBlock>, v: Sight): (g: seq<seq<Message>>)
    ensures |g| == |log| && forall i :: 0 <= i < |log| ==> g[i] == [Message(log[i].offset, v.message(log[i]))]
  {
    seq(|log|, i requires 0 <= i < |log| => [Message(log[i].offset, v.message(log[i]))])
  }

  ghost predicate Plain(log: seq<LegacyCodec.MessageBlock>) {
    && LegacyTruncation.AllValid(log)
    && forall i, j :: 0 <= i < j < |log| ==> log[i].offset < log[j].offset
  }

  /** A message that is not wrapped is seen at its own offset. */
  lemma PlainWraps(b: LegacyCodec.MessageBlock, v: Sight)
    requires LegacyCodec.ValidBlock(b)
    ensures Wraps(LegacyBlock(b.offset, SeenMessages([b], v)), [Message(b.offset, v.message(b))])
  {
  }

  lemma AllWrap(log: seq<LegacyCodec.MessageBlock>, v: Sight)
    requires LegacyTruncation.AllValid(log)
    ensures WrapsAll(SeenBlocks(log, v), Groups(log, v))
  {
    forall i | 0 <= i < |log| ensures Wraps(SeenBlocks(log, v)[i], Groups(log, v)[i]) {
      PlainWraps(log[i], v);
      assert log[i].msg.inner.Null?;
    }
  }

  lemma {:induction false} FlatOf(log: seq<LegacyCodec.MessageBlock>, v: Sight)
    ensures |Flat(Groups(log, v))| == |log|
    ensures forall i :: 0 <= i < |log| ==> Flat(Groups(log, v))[i] == Message(log[i].offset, v.message(log[i]))
  {
    if log != [] {
      FlatOf(log[1..], v);
      assert Groups(log, v)[1..] == Groups(log[1..], v);
    }
  }

  lemma GroupsAreLog(log: seq<LegacyCodec.MessageBlock>, v: Sight)
    requires Plain(log)
    ensures LegacyLog(Groups(log, v))
  {
    FlatOf(log, v);
  }

  /** Message i is the first not behind `off`. */
  ghost predicate StartsAt(log: seq<LegacyCodec.MessageBlock>, off: int, i: nat) {
    i <= |log| && (forall j :: 0 <= j < i ==> log[j].offset < off) && (forall j :: i <= j < |log| ==> off <= log[j].offset)
  }

  /** The bytes of messages i up to m. */
  ghost function LegacyStretch(log: seq<LegacyCodec.MessageBlock>, env: Truncation.Env, i: nat, m: nat): Wire.Bytes
    requires Plain(log) && i <= m <= |log|
  {
    LegacyTruncation.SetBytes(log[i..m], env.ieee)
  }

  /** The block decoded from the first k of them. */
  ghost function LegacyDecoded(log: seq<LegacyCodec.MessageBlock>, env: Truncation.Env, i: nat, m: nat, k: nat): Encoding.Nullable<Truncation.FetchBlock>
    requires Plain(log) && i <= m <= |log| && k <= |LegacyStretch(log, env, i, m)|
  {
    Truncation.Scan(LegacyStretch(log, env, i, m)[..k], [], Encoding.Null, env)
  }

  /** The response is decoded from the first k bytes of messages i up to m. */
  ghost predicate FromLegacyBytes(log: seq<LegacyCodec.MessageBlock>, env: Truncation.Env, v: Sight, off: int, r: Response, i: nat, m: nat, k: nat)
    requires Plain(log)
  {
    && r.Found? && StartsAt(log, off, i) && i <= m <= |log| && k <= |LegacyStretch(log, env, i, m)| && LegacyDecoded(log, env, i, m, k).Val?
    && r.block == SeenBlock(LegacyDecoded(log, env, i, m, k).value, r.block.highWaterMark, r.block.aborted, v)
  }

  lemma OneSeenSet(ms: seq<LegacyCodec.MessageBlock>, partial: bool, v: Sight)
    ensures SeenSets([Truncation.Legacy(LegacyCodec.MessageSet(ms, partial, false))], v) == [Records.Legacy(SeenBlocks(ms, v))]
  {
  }

  /** Decoding never fails, wherever the bytes end: it gives a part of the first message, nothing yet, or
      the complete messages in one set. */
  lemma LegacyDecodedAs(log: seq<LegacyCodec.MessageBlock>, env: Truncation.Env, i: nat, m: nat, k: nat) returns (j: nat, partial: bool)
    requires Plain(log) && i <= m <= |log| && k <= |LegacyStretch(log, env, i, m)|
    ensures var b := LegacyDecoded(log, env, i, m, k);
            && b.Val? && i <= j <= m
            && (|| (Truncation.IsPartial(b.value) && Truncation.TotalRecords(b.value.sets) == 0)
                || (i == j && b.value == Truncation.FetchBlock([], false, Encoding.Null))
                || (i < j && b.value.sets == [Truncation.Legacy(LegacyCodec.MessageSet(log[i..j], partial, false))]))
  {
    hide Truncation.Scan, LegacyTruncation.SetBytes, LegacyTruncation.CompleteBlocks, LegacyCodec.ValidBlock, Truncation.TotalRecords, Truncation.IsPartial;
    var ms := log[i..m];
    LegacyTruncation.CutLegacyFetch(ms, k, env);
    var n := LegacyTruncation.CompleteBlocks(ms, k, env.ieee);
    assert ms[..n] == log[i..i + n];
    j, partial := if k == 0 then i else i + n, |LegacyTruncation.SetBytes(ms[..n], env.ieee)| < k;
  }

  lemma GroupsStart(log: seq<LegacyCodec.MessageBlock>, v: Sight, off: int, i: nat)
    requires StartsAt(log, off, i)
    ensures var g := Groups(log, v);
            && (forall k :: 0 <= k < |g| ==> g[k] != [])
            && (forall k :: 0 <= k < i ==> LastOffset(g[k]) < off) && (forall k :: i <= k < |g| ==> off <= LastOffset(g[k]))
  {
  }

  lemma SomeAnswer(log: seq<LegacyCodec.MessageBlock>, v: Sight, off: int, b: Block, i: nat, j: nat)
    requires Plain(log) && StartsAt(log, off, i) && i < j <= |log| && !b.failed && b.sets == [Legacy(SeenBlocks(log[i..j], v))]
    ensures LegacyAnswers(Groups(log, v), off, b, i, j)
  {
    GroupsAreLog(log, v);
    AllWrap(log[i..j], v);
    GroupsStart(log, v, off, i);
    assert Groups(log[i..j], v) == Groups(log, v)[i..j];
    hide Plain, StartsAt, LegacyLog, WrapsAll, SeenBlocks;
  }

  lemma NoAnswer(log: seq<LegacyCodec.MessageBlock>, v: Sight, off: int, b: Block, i: nat)
    requires Plain(log) && StartsAt(log, off, i) && !b.failed && b.sets == [] && b.lastBatchOffset.None?
    ensures LegacyAnswers(Groups(log, v), off, b, i, i)
  {
    GroupsAreLog(log, v);
    GroupsStart(log, v, off, i);
    hide Plain, LegacyLog;
  }

  /** A response decoded from a stretch of the log, cut off anywhere, is one a broker may give. */
  lemma LegacyBytesAreHonest(log: seq<LegacyCodec.MessageBlock>, env: Truncation.Env, v: Sight, pos: Position, r: Response, i: nat, m: nat, k: nat)
    requires Plain(log) && FromLegacyBytes(log, env, v, pos.offset, r, i, m, k)
    ensures LegacyHonest(Groups(log, v), pos, r)
  {
    hide Plain, StartsAt, LegacyStretch, LegacyDecoded, Truncation.IsPartial, Truncation.TotalRecords, NumRecords, SeenBlocks, LegacyAnswers, SeenSets;
    var j, partial := LegacyDecodedAs(log, env, i, m, k);
    var b := LegacyDecoded(log, env, i, m, k).value;
    SameCount(b.sets, v);
    if !CutOff(r.block) {
      if i == j {
        NoSets(v);
        NoAnswer(log, v, pos.offset, r.block, i);
      } else {
        OneSeenSet(log[i..j], partial, v);
        SomeAnswer(log, v, pos.offset, r.block, i, j);
      }
    }
  }

  lemma NoSets(v: Sight)
    ensures SeenSets([], v) == []
  {
  }

  ghost predicate LegacyDelivered(log: seq<LegacyCodec.MessageBlock>, env: Truncation.Env, v: Sight, pos: Position, conf: Config, rs: seq<Response>)
    requires Plain(log)
    decreases rs
  {
    rs == []
    || ((rs[0].Throttled? || rs[0].Missing? || rs[0].block.failed || exists i, m, k :: FromLegacyBytes(log, env, v, pos.offset, rs[0], i, m, k))
        && LegacyDelivered(log, env, v, ParseResponse(conf, pos, rs[0]).1, conf, rs[1..]))
  }

  lemma {:induction false} DeliveredIsLegacyRun(log: seq<LegacyCodec.MessageBlock>, env: Truncation.Env, v: Sight, pos: Position, conf: Config, rs: seq<Response>)
    requires Plain(log) && LegacyDelivered(log, env, v, pos, conf, rs)
    ensures LegacyRun(conf, Groups(log, v), pos, rs)
    decreases rs
  {
    hide Plain, FromLegacyBytes, LegacyAnswers, ParseResponse;
    if rs != [] {
      var r := rs[0];
      if !(r.Throttled? || r.Missing? || r.block.failed) {
        var i, m, k :| FromLegacyBytes(log, env, v, pos.offset, r, i, m, k);
        LegacyBytesAreHonest(log, env, v, pos, r, i, m, k);
      }
      DeliveredIsLegacyRun(log, env, v, ParseResponse(conf, pos, r).1, conf, rs[1..]);
    }
  }

  /** However the bytes of a log of legacy messages are cut into responses, what is handed out are its
      messages, each with its offset, from the starting offset up to the consumer's, but for offsets
      skipped for a message too large to fetch. */
  lemma LegacyBytesToUser(log: seq<LegacyCodec.MessageBlock>, env: Truncation.Env, v: Sight, pos: Position, conf: Config, rs: seq<Response>)
    requires Plain(log) && LegacyDelivered(log, env, v, pos, conf, rs)
    ensures var (ms, end) := Consume(conf, pos, rs); Reads(Groups(log, v), pos.offset, end.offset, Skipped(conf, pos, rs), ms)
  {
    hide Reads;
    GroupsAreLog(log, v);
    hide LegacyLog, Plain, LegacyDelivered, LegacyRun;
    DeliveredIsLegacyRun(log, env, v, pos, conf, rs);
    ReadsTheLog(conf, Groups(log, v), pos, rs);
  }
}
