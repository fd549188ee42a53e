/** A partition consumer under arbitrary broker data: no assumption about the log, the order of the
    batches or the aborted transactions a response lists. */
module OffsetMonotony {
  import opened FetchModel
  import opened ReadCommittedRun

  /** Ascending offsets, all from `lo` up to `hi`. */
  ghost predicate Climbs(lo: int, ms: seq<Message>, hi: int) {
    lo <= hi && Ascending(ms) && forall m :: m in ms ==> lo <= m.offset < hi
  }

  lemma ClimbThenClimb(a: int, ms: seq<Message>, b: int, ns: seq<Message>, c: int)
    requires Climbs(a, ms, b) && Climbs(b, ns, c)
    ensures Climbs(a, ms + ns, c)
  {
    forall i, j | 0 <= i < j < |ms + ns| ensures (ms + ns)[i].offset < (ms + ns)[j].offset {
      if i < |ms| <= j { assert ms[i] in ms && ns[j - |ms|] in ns; }
    }
  }

  lemma {:induction false} TakeRecordsClimbs(recs: seq<Record>, first: int, off: int)
    ensures var p := TakeRecords(recs, first, off); Climbs(off, p.messages, p.offset)
  {
    if recs != [] {
      var o := first + recs[0].delta;
      if o < off { TakeRecordsClimbs(recs[1..], first, off); }
      else {
        TakeRecordsClimbs(recs[1..], first, o + 1);
        var p := TakeRecords(recs[1..], first, o + 1);
        ClimbThenClimb(off, [Message(o, recs[0].payload)], o + 1, p.messages, p.offset);
      }
    }
  }

  lemma {:induction false} TakeMessagesClimbs(ms: seq<Message>, off: int)
    ensures var p := TakeMessages(ms, off); Climbs(off, p.messages, p.offset)
  {
    if ms != [] {
      if ms[0].offset < off { TakeMessagesClimbs(ms[1..], off); }
      else {
        TakeMessagesClimbs(ms[1..], ms[0].offset + 1);
        var p := TakeMessages(ms[1..], ms[0].offset + 1);
        ClimbThenClimb(off, [ms[0]], ms[0].offset + 1, p.messages, p.offset);
      }
    }
  }

  /** However batches and message sets are mixed, ordered or filtered, a scan only climbs. */
  lemma {:induction false} ScanClimbs(sets: seq<Records>, pending: seq<AbortedTxn>, aborting: set<int>, off: int, rc: bool)
    ensures var s := ParseSets(sets, pending, aborting, off, rc); Climbs(off, s.parsed.messages, s.parsed.offset)
  {
    if sets != [] {
      match sets[0]
      case Legacy(blocks) =>
        TakeMessagesClimbs(LegacyMessages(blocks), off);
        var p := ParseMessages(blocks, off);
        ScanClimbs(sets[1..], pending, aborting, p.offset, rc);
        var s := ParseSets(sets[1..], pending, aborting, p.offset, rc);
        ClimbThenClimb(off, p.messages, p.offset, s.parsed.messages, s.parsed.offset);
      case Default(b) =>
        TakeRecordsClimbs(b.records, b.first, off);
        var p := ParseRecords(b, off);
        var n := Started(pending, Last(b));
        var now := aborting + Producers(pending[..n]);
        var then' := if b.purpose == Abort then now - {b.producer} else now;
        ScanClimbs(sets[1..], pending[n..], then', p.offset, rc);
        var s := ParseSets(sets[1..], pending[n..], then', p.offset, rc);
        ClimbThenClimb(off, p.messages, p.offset, s.parsed.messages, s.parsed.offset);
        ClimbThenClimb(off, [], p.offset, s.parsed.messages, s.parsed.offset);
    }
  }

  /** The response has no records and names a last batch at least two behind the consumer's offset. */
  predicate JumpsBack(pos: Position, r: Response) {
    r.Found? && !r.block.failed && NumRecords(r.block.sets) == 0 && !r.block.partial
    && r.block.lastBatchOffset.Some? && r.block.lastBatchOffset.value < r.block.highWaterMark
    && r.block.lastBatchOffset.value + 1 < pos.offset
  }

  /** One response moves the offset back exactly when it jumps back, and what it hands out climbs
      from the old offset to the new one. */
  lemma OffsetFallsOnlyByJump(conf: Config, pos: Position, r: Response)
    ensures var (o, next) := ParseResponse(conf, pos, r);
            && (next.offset < pos.offset <==> JumpsBack(pos, r))
            && (!JumpsBack(pos, r) ==> Climbs(pos.offset, Handed(o), next.offset))
  {
    if r.Found? && !r.block.failed && NumRecords(r.block.sets) != 0 {
      ScanClimbs(r.block.sets, SortTxns(r.block.aborted), {}, pos.offset, conf.readCommitted);
    }
  }

  ghost predicate NoJumpBack(conf: Config, pos: Position, rs: seq<Response>)
    decreases rs
  {
    rs == [] || (!JumpsBack(pos, rs[0]) && NoJumpBack(conf, ParseResponse(conf, pos, rs[0]).1, rs[1..]))
  }

  /** Over any run of responses without a jump back, the offsets handed out are strictly increasing
      across all calls, and the consumer's offset never decreases. */
  lemma {:induction false} OffsetsClimb(conf: Config, pos: Position, rs: seq<Response>)
    requires NoJumpBack(conf, pos, rs)
    ensures var (ms, end) := Consume(conf, pos, rs); Climbs(pos.offset, ms, end.offset)
    decreases rs
  {
    if rs != [] {
      OffsetFallsOnlyByJump(conf, pos, rs[0]);
      var (o, next) := ParseResponse(conf, pos, rs[0]);
      OffsetsClimb(conf, next, rs[1..]);
      var (ms, end) := Consume(conf, next, rs[1..]);
      ClimbThenClimb(pos.offset, Handed(o), next.offset, ms, end.offset);
    }
  }

  function Answer(sets: seq<Records>, last: int): Response {
    Found(Block(false, false, Some(last), 10, [], sets))
  }

  /** The condition is needed: after a jump back the same record is handed out twice. */
  lemma JumpBackRepeats()
    ensures var conf, pos := Config(1024, 0, false), Position(5, 1024);
            var batch := Default(Batch(5, 0, 7, false, UserData, [Record(0, 42)]));
            var rs := [Answer([batch], 5), Answer([], 2), Answer([batch], 5)];
            Consume(conf, pos, rs).0 == [Message(5, 42), Message(5, 42)]
  {
    var conf, pos := Config(1024, 0, false), Position(5, 1024);
    var b := Batch(5, 0, 7, false, UserData, [Record(0, 42)]);
    var batch := Default(b);
    var rs := [Answer([batch], 5), Answer([], 2), Answer([batch], 5)];
    forall off | off == 5 || off == 3
      ensures ParseResponse(conf, Position(off, 1024), Answer([batch], 5)) == (Ok([Message(5, 42)]), Position(6, 1024))
    {
      assert TakeRecords(b.records, 5, off) == Parsed([Message(5, 42)], 6) by { assert TakeRecords(b.records[1..], 5, 6) == Parsed([], 6); }
      assert ParseSets([batch], [], {}, off, false) == Scan(Parsed([Message(5, 42)], 6), true) by {
        assert [batch][1..] == [];
        assert [Message(5, 42)] + [] == [Message(5, 42)];
      }
    }
    assert ParseResponse(conf, Position(6, 1024), Answer([], 2)) == (Ok([]), Position(3, 1024));
    assert rs[1..] == [Answer([], 2), Answer([batch], 5)] && rs[1..][1..] == [Answer([batch], 5)] && rs[1..][1..][1..] == [];
    assert Consume(conf, Position(6, 1024), []).0 == [];
    assert Consume(conf, Position(3, 1024), rs[1..][1..]).0 == [Message(5, 42)];
    assert Consume(conf, Position(6, 1024), rs[1..]).0 == [Message(5, 42)];
  }

  // -------------------------------------------------------------------------------- outcomes

  /** A control batch without a control record that can be read. */
  predicate Unreadable(r: Records) {
    r.Default? && r.batch.purpose != UserData && (r.batch.records == [] || r.batch.purpose == Damaged)
  }

  /** A scan fails if and only if a control record cannot be read. */
  lemma {:induction false} ScanFailsIff(sets: seq<Records>, pending: seq<AbortedTxn>, aborting: set<int>, off: int, rc: bool)
    ensures ParseSets(sets, pending, aborting, off, rc).ok <==> forall k :: 0 <= k < |sets| ==> !Unreadable(sets[k])
  {
    hide ParseRecords, ParseMessages;
    if sets != [] {
      assert forall k :: 0 < k < |sets| ==> sets[k] == sets[1..][k - 1];
      match sets[0] {
        case Legacy(blocks) => ScanFailsIff(sets[1..], pending, aborting, ParseMessages(blocks, off).offset, rc);
        case Default(b) =>
          var n := Started(pending, Last(b));
          var now := aborting + Producers(pending[..n]);
          ScanFailsIff(sets[1..], pending[n..], if b.purpose == Abort then now - {b.producer} else now, ParseRecords(b, off).offset, rc);
      }
    }
  }

  /** What a response comes to: an error when the block is missing, reports one, or holds a control record
      that cannot be read; the size error when it is skipped; otherwise messages. */
  lemma OutcomeIs(conf: Config, pos: Position, r: Response)
    ensures var o := ParseResponse(conf, pos, r).0;
            && (o.Error? <==> r.Missing? || (r.Found? && (r.block.failed
                                || (NumRecords(r.block.sets) > 0 && exists k :: 0 <= k < |r.block.sets| && Unreadable(r.block.sets[k])))))
            && (o.TooLarge? <==> Skips(conf, pos, r))
            && (o.Error? && (r.Missing? || r.block.failed) ==> ParseResponse(conf, pos, r).1 == pos)
            && (r.Throttled? ==> ParseResponse(conf, pos, r) == (Ok([]), pos))
  {
    if r.Found? && !r.block.failed && NumRecords(r.block.sets) > 0 {
      ScanFailsIff(r.block.sets, SortTxns(r.block.aborted), {}, pos.offset, conf.readCommitted);
    }
    hide ParseSets;
  }

  // -------------------------------------------------------------------------------- progress

  /** A record set moves the offset behind the last message it exposes, or by one when all of it is
      behind. */
  lemma SetAdvances(b: Batch, blocks: seq<LegacyBlock>, off: int)
    ensures var p := ParseRecords(b, off);
            p.offset > off && (p.messages == [] ==> p.offset == off + 1) && (p.messages != [] ==> p.offset == p.messages[|p.messages| - 1].offset + 1)
    ensures var p := ParseMessages(blocks, off);
            p.offset > off && (p.messages == [] ==> p.offset == off + 1) && (p.messages != [] ==> p.offset == p.messages[|p.messages| - 1].offset + 1)
  {
    TakeRecordsLeaves(b.records, b.first, off);
    TakeMessagesLeaves(LegacyMessages(blocks), off);
    TakeRecordsClimbs(b.records, b.first, off);
    TakeMessagesClimbs(LegacyMessages(blocks), off);
    var p, q := TakeRecords(b.records, b.first, off), TakeMessages(LegacyMessages(blocks), off);
    assert p.messages != [] ==> p.messages[|p.messages| - 1] in p.messages;
    assert q.messages != [] ==> q.messages[|q.messages| - 1] in q.messages;
  }

  lemma {:induction false} TakeRecordsLeaves(recs: seq<Record>, first: int, off: int)
    ensures var p := TakeRecords(recs, first, off); p.offset == if p.messages == [] then off else p.messages[|p.messages| - 1].offset + 1
  {
    if recs != [] {
      var o := first + recs[0].delta;
      TakeRecordsLeaves(recs[1..], first, if o < off then off else o + 1);
    }
  }

  lemma {:induction false} TakeMessagesLeaves(ms: seq<Message>, off: int)
    ensures var p := TakeMessages(ms, off); p.offset == if p.messages == [] then off else p.messages[|p.messages| - 1].offset + 1
  {
    if ms != [] { TakeMessagesLeaves(ms[1..], if ms[0].offset < off then off else ms[0].offset + 1); }
  }

  lemma ScanAdvances(sets: seq<Records>, pending: seq<AbortedTxn>, aborting: set<int>, off: int, rc: bool)
    requires sets != []
    ensures ParseSets(sets, pending, aborting, off, rc).parsed.offset > off
  {
    hide ParseRecords, ParseMessages;
    match sets[0] {
      case Legacy(blocks) =>
        SetAdvances(Batch(0, 0, 0, false, UserData, []), blocks, off);
        ScanClimbs(sets[1..], pending, aborting, ParseMessages(blocks, off).offset, rc);
      case Default(b) =>
        SetAdvances(b, [], off);
        var n := Started(pending, Last(b));
        var now := aborting + Producers(pending[..n]);
        ScanClimbs(sets[1..], pending[n..], if b.purpose == Abort then now - {b.producer} else now, ParseRecords(b, off).offset, rc);
    }
  }

  /** A response with records always moves the consumer on, and sets its fetch size back; one that is cut
      off leaves it where it is with a larger fetch size, up to the limit, where it moves on by one. */
  lemma ResponseAdvances(conf: Config, pos: Position, r: Response)
    requires ValidConfig(conf) && 0 < pos.fetchSize <= Limit(conf) && r.Found? && !r.block.failed
    ensures var next := ParseResponse(conf, pos, r).1;
            && (NumRecords(r.block.sets) > 0 ==> next.offset > pos.offset && next.fetchSize == conf.fetchDefault)
            && (NumRecords(r.block.sets) == 0 && r.block.partial ==>
                  if conf.fetchMax > 0 && pos.fetchSize == conf.fetchMax then next == Position(pos.offset + 1, pos.fetchSize)
                  else next.offset == pos.offset
                       && next.fetchSize == var most := if conf.fetchMax > 0 then conf.fetchMax else MAX_INT32; if 2 * pos.fetchSize <= most then 2 * pos.fetchSize else most)
  {
    if NumRecords(r.block.sets) > 0 {
      ScanAdvances(r.block.sets, SortTxns(r.block.aborted), {}, pos.offset, conf.readCommitted);
      hide ParseSets;
    } else {
      FetchSizeGrows(conf, pos.fetchSize);
      hide GrowFetch;
    }
  }

  // -------------------------------------------------------------------------- the fetch size

  /** What configuration validation accepts, as 32-bit values. */
  predicate ValidConfig(conf: Config) {
    0 < conf.fetchDefault <= MAX_INT32 && 0 <= conf.fetchMax <= MAX_INT32
  }

  function Limit(conf: Config): int {
    var l := if conf.fetchMax > 0 then conf.fetchMax else MAX_INT32;
    if l < conf.fetchDefault then conf.fetchDefault else l
  }

  /** Doubling with 32-bit wrap-around never leaves the allowed sizes and never gives up size: below
      the limit it doubles, or it stops at the limit. */
  lemma FetchSizeGrows(conf: Config, size: int)
    requires ValidConfig(conf) && 0 < size <= Limit(conf)
    ensures 0 < GrowFetch(size, conf.fetchMax) <= Limit(conf)
    ensures conf.fetchMax == 0 ==> GrowFetch(size, 0) == if 2 * size <= MAX_INT32 then 2 * size else MAX_INT32
    ensures 0 < conf.fetchMax ==> GrowFetch(size, conf.fetchMax) == if 2 * size <= conf.fetchMax then 2 * size else conf.fetchMax
  {
    var w := size * 2 + 0x8000_0000;
    assert if w < 0x1_0000_0000 then w % 0x1_0000_0000 == w else w % 0x1_0000_0000 == w - 0x1_0000_0000;
  }

  lemma {:induction false} FetchSizeInBounds(conf: Config, pos: Position, rs: seq<Response>)
    requires ValidConfig(conf) && 0 < pos.fetchSize <= Limit(conf)
    ensures 0 < Consume(conf, pos, rs).1.fetchSize <= Limit(conf)
    decreases rs
  {
    if rs != [] {
      FetchSizeGrows(conf, pos.fetchSize);
      FetchSizeInBounds(conf, ParseResponse(conf, pos, rs[0]).1, rs[1..]);
    }
  }
}
