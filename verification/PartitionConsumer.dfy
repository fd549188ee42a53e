/** partitionConsumer as the object it is: `offset` and `fetchSize` updated in place by loops over the
    response. Each method does what the functions of FetchModel say. */
module PartitionConsumers {
  import opened FetchModel

  lemma ExposeTwice(ms: seq<Message>, ns: seq<Message>, rest: Scan)
    ensures Expose(ms, Expose(ns, rest)) == Expose(ms + ns, rest)
  {
    assert ms + (ns + rest.parsed.messages) == ms + ns + rest.parsed.messages;
  }

  lemma ExposeNothing(rest: Scan)
    ensures Expose([], rest) == rest
  {
    assert [] + rest.parsed.messages == rest.parsed.messages;
  }

  /** Prepending to what a parse of the remaining items gives. */
  ghost function After(ms: seq<Message>, p: Parsed): Parsed {
    p.(messages := ms + p.messages)
  }

  lemma AfterTwice(ms: seq<Message>, m: Message, p: Parsed)
    ensures After(ms, p.(messages := [m] + p.messages)) == After(ms + [m], p)
  {
    assert ms + ([m] + p.messages) == ms + [m] + p.messages;
  }

  lemma {:induction false} TakeMessagesAppend(xs: seq<Message>, ys: seq<Message>, off: int)
    ensures TakeMessages(xs + ys, off) == After(TakeMessages(xs, off).messages, TakeMessages(ys, TakeMessages(xs, off).offset))
  {
    if xs == [] {
      assert xs + ys == ys;
    } else {
      assert (xs + ys)[1..] == xs[1..] + ys;
      TakeMessagesAppend(xs[1..], ys, if xs[0].offset < off then off else xs[0].offset + 1);
    }
  }

  class PartitionConsumer {
    const conf: Config
    var offset: int
    var fetchSize: int
    var highWaterMark: int

    constructor (conf: Config, start: int)
      ensures this.conf == conf && Abs() == Position(start, conf.fetchDefault)
    {
      this.conf := conf;
      offset, fetchSize, highWaterMark := start, conf.fetchDefault, 0;
    }

    ghost function Abs(): Position
      reads this
    {
      Position(offset, fetchSize)
    }

    method ParseRecords(b: Batch) returns (messages: seq<Message>)
      modifies this`offset
      ensures Parsed(messages, offset) == FetchModel.ParseRecords(b, old(offset))
    {
      messages := [];
      var i := 0;
      ghost var all := TakeRecords(b.records, b.first, offset);
      assert After([], all) == all by { assert [] + all.messages == all.messages; }
      assert b.records[0..] == b.records;
      while i < |b.records|
        invariant i <= |b.records|
        invariant all == After(messages, TakeRecords(b.records[i..], b.first, offset))
        invariant messages == [] ==> offset == old(offset)
      {
        var rec := b.records[i];
        var o := b.first + rec.delta;
        assert b.records[i..][1..] == b.records[i + 1..];
        i := i + 1;
        if o < offset { continue; }
        AfterTwice(messages, Message(o, rec.payload), TakeRecords(b.records[i..], b.first, o + 1));
        messages := messages + [Message(o, rec.payload)];
        offset := o + 1;
      }
      if |messages| == 0 { offset := offset + 1; }
    }

    /** The messages of one block that are not behind the offset. */
    method ParseBlock(b: LegacyBlock) returns (messages: seq<Message>)
      modifies this`offset
      ensures Parsed(messages, offset) == TakeMessages(BlockOffsets(b), old(offset))
    {
      messages := [];
      ghost var bo := BlockOffsets(b);
      ghost var all := TakeMessages(bo, offset);
      assert After([], all) == all by { assert [] + all.messages == all.messages; }
      assert bo[0..] == bo;
      for i := 0 to |b.messages|
        invariant all == After(messages, TakeMessages(bo[i..], offset))
      {
        var msg := b.messages[i];
        var o := msg.offset;
        if msg.version >= 1 {
          var base := b.offset - b.messages[|b.messages| - 1].offset;
          o := o + base;
        }
        assert bo[i..][1..] == bo[i + 1..];
        if o < offset { continue; }
        AfterTwice(messages, Message(o, msg.payload), TakeMessages(bo[i + 1..], o + 1));
        messages := messages + [Message(o, msg.payload)];
        offset := o + 1;
      }
    }

    method ParseMessages(blocks: seq<LegacyBlock>) returns (messages: seq<Message>)
      modifies this`offset
      ensures Parsed(messages, offset) == FetchModel.ParseMessages(blocks, old(offset))
    {
      messages := [];
      ghost var all := TakeMessages(LegacyMessages(blocks), offset);
      assert After([], all) == all by { assert [] + all.messages == all.messages; }
      assert blocks[0..] == blocks;
      for i := 0 to |blocks|
        invariant all == After(messages, TakeMessages(LegacyMessages(blocks[i..]), offset))
      {
        assert blocks[i..][1..] == blocks[i + 1..];
        TakeMessagesAppend(BlockOffsets(blocks[i]), LegacyMessages(blocks[i + 1..]), offset);
        var some := ParseBlock(blocks[i]);
        assert messages + (some + TakeMessages(LegacyMessages(blocks[i + 1..]), offset).messages)
            == messages + some + TakeMessages(LegacyMessages(blocks[i + 1..]), offset).messages;
        messages := messages + some;
      }
      if |messages| == 0 { offset := offset + 1; }
    }

    /** Moves the transactions that start at or before `last` from the sorted list to the set. */
    static method PopStarted(pending: seq<AbortedTxn>, aborting: set<int>, last: int) returns (rest: seq<AbortedTxn>, now: set<int>)
      ensures rest == pending[Started(pending, last)..]
      ensures now == aborting + Producers(pending[..Started(pending, last)])
    {
      rest, now := pending, aborting;
      ghost var k := 0;
      while rest != [] && rest[0].first <= last
        invariant k <= |pending| && rest == pending[k..]
        invariant forall i :: 0 <= i < k ==> pending[i].first <= last
        invariant now == aborting + Producers(pending[..k])
        decreases |rest|
      {
        assert pending[..k + 1] == pending[..k] + [rest[0]];
        now := now + {rest[0].producer};
        rest := rest[1..];
        k := k + 1;
      }
      assert k == Started(pending, last);
    }

    /** One record set: `ok` is false when a control record does not decode. */
    method ParseSet(set': Records, pending: seq<AbortedTxn>, aborting: set<int>, ghost rest: seq<Records>)
      returns (ok: bool, messages: seq<Message>, pending': seq<AbortedTxn>, aborting': set<int>)
      modifies this`offset
      ensures ParseSets([set'] + rest, pending, aborting, old(offset), conf.readCommitted) ==
                if ok then Expose(messages, ParseSets(rest, pending', aborting', offset, conf.readCommitted))
                else Scan(Parsed([], offset), false)
    {
      assert ([set'] + rest)[1..] == rest;
      ok, messages, pending', aborting' := true, [], pending, aborting;
      match set'
      case Legacy(blocks) =>
        messages := ParseMessages(blocks);
      case Default(b) =>
        pending', aborting' := PopStarted(pending, aborting, Last(b));
        var parsed := ParseRecords(b);
        if b.purpose != UserData {
          if b.records == [] || b.purpose == Damaged { ok := false; return; }
          if b.purpose == Abort { aborting' := aborting' - {b.producer}; }
          ExposeNothing(ParseSets(rest, pending', aborting', offset, conf.readCommitted));
        } else if !(conf.readCommitted && b.txn && b.producer in aborting') {
          messages := parsed;
        }
    }

    /** The loop over the record sets of a response. */
    method ParseAll(sets: seq<Records>, aborted: seq<AbortedTxn>) returns (ok: bool, messages: seq<Message>)
      modifies this`offset
      ensures var s := ParseSets(sets, aborted, {}, old(offset), conf.readCommitted);
              ok == s.ok && offset == s.parsed.offset && (ok ==> messages == s.parsed.messages)
    {
      hide ParseSets;
      ghost var all := ParseSets(sets, aborted, {}, offset, conf.readCommitted);
      var pending, aborting := aborted, {};
      ok, messages := true, [];
      ExposeNothing(all);
      assert sets[0..] == sets;
      for i := 0 to |sets|
        invariant all == Expose(messages, ParseSets(sets[i..], pending, aborting, offset, conf.readCommitted))
      {
        assert sets[i..] == [sets[i]] + sets[i + 1..];
        var good, some, pending', aborting' := ParseSet(sets[i], pending, aborting, sets[i + 1..]);
        if !good { return false, []; }
        ExposeTwice(messages, some, ParseSets(sets[i + 1..], pending', aborting', offset, conf.readCommitted));
        messages, pending, aborting := messages + some, pending', aborting';
      }
      ScanEmpty(sets[|sets|..], pending, aborting, offset, conf.readCommitted);
    }

    method ParseResponse(r: Response) returns (o: Outcome)
      modifies this
      ensures (o, Abs()) == FetchModel.ParseResponse(conf, old(Abs()), r)
      ensures highWaterMark == if r.Found? && !r.block.failed && NumRecords(r.block.sets) > 0 then r.block.highWaterMark else old(highWaterMark)
    {
      if r.Throttled? { return Ok([]); }
      if r.Missing? { return Error; }
      var b := r.block;
      if b.failed { return Error; }
      if NumRecords(b.sets) == 0 {
        if b.partial {
          if conf.fetchMax > 0 && fetchSize == conf.fetchMax {
            offset := offset + 1;
            return TooLarge;
          }
          fetchSize := Wrap32(fetchSize * 2);
          if fetchSize < 0 { fetchSize := MAX_INT32; }
          if conf.fetchMax > 0 && fetchSize > conf.fetchMax { fetchSize := conf.fetchMax; }
        } else if b.lastBatchOffset.Some? && b.lastBatchOffset.value < b.highWaterMark {
          offset := b.lastBatchOffset.value + 1;
        }
        return Ok([]);
      }
      fetchSize := conf.fetchDefault;
      highWaterMark := b.highWaterMark;
      var ok, messages := ParseAll(b.sets, SortTxns(b.aborted));
      o := if ok then Ok(messages) else Error;
    }
  }

  lemma ScanEmpty(sets: seq<Records>, pending: seq<AbortedTxn>, aborting: set<int>, off: int, rc: bool)
    requires sets == []
    ensures ParseSets(sets, pending, aborting, off, rc) == Scan(Parsed([], off), true)
  {
  }
}
