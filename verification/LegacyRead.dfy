/** Reading a log of legacy message sets: wrapped messages carry relative offsets, and what the user
    gets are the messages of the log with the offsets they have there. */
module LegacyRead {
  import opened FetchModel
  import opened ReadCommittedRun

  // ------------------------------------------------------------------------- one block's offsets

  /** What a consumer makes of the offsets of a block: the last message of version 1 is at the block's
      own offset, messages of version 1 lie as far apart as they are written, and those of version 0
      are where they are written. */
  lemma BlockOffsetsAre(b: LegacyBlock, i: nat, j: nat)
    requires i < |b.messages| && j < |b.messages|
    ensures |BlockOffsets(b)| == |b.messages| && BlockOffsets(b)[i].payload == b.messages[i].payload
    ensures i == |b.messages| - 1 && b.messages[i].version >= 1 ==> BlockOffsets(b)[i].offset == b.offset
    ensures b.messages[i].version >= 1 && b.messages[j].version >= 1 ==>
              BlockOffsets(b)[i].offset - BlockOffsets(b)[j].offset == b.messages[i].offset - b.messages[j].offset
    ensures b.messages[i].version == 0 ==> BlockOffsets(b)[i].offset == b.messages[i].offset
  {
  }

  /** The block holds these messages: of version 0 with their own offsets, or of version 1 with offsets
      relative to any base, the block then being at the offset of the last. */
  ghost predicate Wraps(b: LegacyBlock, ms: seq<Message>) {
    && ms != [] && |b.messages| == |ms| && (forall i :: 0 <= i < |ms| ==> b.messages[i].payload == ms[i].payload)
    && (|| (forall i :: 0 <= i < |ms| ==> b.messages[i].version == 0 && b.messages[i].offset == ms[i].offset)
        || (&& b.offset == ms[|ms| - 1].offset && (forall i :: 0 <= i < |ms| ==> b.messages[i].version >= 1)
            && forall i :: 0 <= i < |ms| ==> ms[i].offset - ms[|ms| - 1].offset == b.messages[i].offset - b.messages[|ms| - 1].offset))
  }

  lemma WrappedAreRead(b: LegacyBlock, ms: seq<Message>)
    requires Wraps(b, ms)
    ensures BlockOffsets(b) == ms
  {
    forall i | 0 <= i < |ms| ensures BlockOffsets(b)[i] == ms[i] {
      BlockOffsetsAre(b, i, |ms| - 1);
      BlockOffsetsAre(b, |ms| - 1, i);
    }
  }

  // --------------------------------------------------------------------------------- a whole log

  function Flat(log: seq<seq<Message>>): seq<Message> {
    if log == [] then [] else log[0] + Flat(log[1..])
  }

  ghost predicate WrapsAll(blocks: seq<LegacyBlock>, log: seq<seq<Message>>) {
    |blocks| == |log| && forall k :: 0 <= k < |log| ==> Wraps(blocks[k], log[k])
  }

  lemma {:induction false} LogIsRead(blocks: seq<LegacyBlock>, log: seq<seq<Message>>)
    requires WrapsAll(blocks, log)
    ensures LegacyMessages(blocks) == Flat(log)
  {
    if log != [] {
      WrappedAreRead(blocks[0], log[0]);
      hide Wraps, BlockOffsets;
      LogIsRead(blocks[1..], log[1..]);
    }
  }

  /** The messages from `lo` up to `hi`. */
  function Between(ms: seq<Message>, lo: int, hi: int): seq<Message> {
    if ms == [] then [] else (if lo <= ms[0].offset < hi then [ms[0]] else []) + Between(ms[1..], lo, hi)
  }

  lemma {:induction false} BetweenHas(ms: seq<Message>, lo: int, hi: int, m: Message)
    ensures m in Between(ms, lo, hi) <==> m in ms && lo <= m.offset < hi
  {
    if ms != [] {
      BetweenHas(ms[1..], lo, hi, m);
      assert ms == [ms[0]] + ms[1..];
    }
  }

  lemma {:induction false} BetweenNone(ms: seq<Message>, lo: int, hi: int)
    requires forall m :: m in ms ==> m.offset < lo || hi <= m.offset
    ensures Between(ms, lo, hi) == []
  {
    if ms != [] {
      assert ms[0] in ms && forall m :: m in ms[1..] ==> m in ms;
      BetweenNone(ms[1..], lo, hi);
    }
  }

  lemma {:induction false} BetweenConcat(a: seq<Message>, b: seq<Message>, lo: int, hi: int)
    ensures Between(a + b, lo, hi) == Between(a, lo, hi) + Between(b, lo, hi)
  {
    if a == [] {
      assert a + b == b;
    } else {
      BetweenConcat(a[1..], b, lo, hi);
      assert (a + b)[1..] == a[1..] + b && (a + b)[0] == a[0];
    }
  }

  lemma AscendingTail(ms: seq<Message>)
    requires ms != [] && Ascending(ms)
    ensures Ascending(ms[1..]) && forall m :: m in ms[1..] ==> ms[0].offset < m.offset
  {
  }

  lemma {:induction false} BetweenSplit(ms: seq<Message>, lo: int, mid: int, hi: int)
    requires Ascending(ms) && lo <= mid <= hi
    ensures Between(ms, lo, hi) == Between(ms, lo, mid) + Between(ms, mid, hi)
  {
    if ms != [] {
      AscendingTail(ms);
      BetweenSplit(ms[1..], lo, mid, hi);
      if ms[0].offset >= mid { BetweenNone(ms[1..], lo, mid); }
    }
  }

  lemma {:induction false} BetweenFrom(ms: seq<Message>, lo: int, mid: int, hi: int)
    requires lo <= mid && forall m :: m in ms ==> mid <= m.offset
    ensures Between(ms, lo, hi) == Between(ms, mid, hi)
  {
    if ms != [] {
      assert ms[0] in ms && forall m :: m in ms[1..] ==> m in ms;
      BetweenFrom(ms[1..], lo, mid, hi);
    }
  }

  /** On ascending offsets, what is taken is what is not behind `off`. */
  lemma {:induction false} TakeMessagesFilters(ms: seq<Message>, off: int, hi: int)
    requires Ascending(ms) && forall m :: m in ms ==> m.offset < hi
    ensures TakeMessages(ms, off).messages == Between(ms, off, hi)
  {
    if ms != [] {
      AscendingTail(ms);
      assert ms[0] in ms && forall m :: m in ms[1..] ==> m in ms;
      hide Ascending;
      if ms[0].offset < off {
        TakeMessagesFilters(ms[1..], off, hi);
      } else {
        TakeMessagesFilters(ms[1..], ms[0].offset + 1, hi);
        BetweenFrom(ms[1..], off, ms[0].offset + 1, hi);
      }
    }
  }

  /** The offset ends behind the last message, if that is not behind. */
  lemma {:induction false} TakeMessagesEnds(ms: seq<Message>, off: int)
    requires Ascending(ms) && ms != []
    ensures TakeMessages(ms, off).offset == if ms[|ms| - 1].offset >= off then ms[|ms| - 1].offset + 1 else off
  {
    AscendingTail(ms);
    if |ms| == 1 {
      assert ms[1..] == [];
    } else {
      assert ms[1..][|ms| - 2] == ms[|ms| - 1] && ms[|ms| - 1] in ms[1..];
      TakeMessagesEnds(ms[1..], if ms[0].offset < off then off else ms[0].offset + 1);
    }
  }

  // ---------------------------------------------------------------------------- one response

  ghost predicate LegacyLog(log: seq<seq<Message>>) {
    (forall k :: 0 <= k < |log| ==> log[k] != []) && Ascending(Flat(log))
  }

  function LastOffset(ms: seq<Message>): int
    requires ms != []
  {
    ms[|ms| - 1].offset
  }

  /** A broker's answer to a fetch at `off`: the blocks from the first that reaches `off`, as many as it
      likes, in one message set; or nothing. */
  ghost predicate LegacyAnswers(log: seq<seq<Message>>, off: int, b: Block, i: nat, j: nat) {
    && LegacyLog(log) && i <= j <= |log| && !b.failed
    && (forall k :: 0 <= k < i ==> LastOffset(log[k]) < off) && (forall k :: i <= k < |log| ==> off <= LastOffset(log[k]))
    && if i == j then b.sets == [] && b.lastBatchOffset.None? else exists blocks :: b.sets == [Legacy(blocks)] && WrapsAll(blocks, log[i..j])
  }

  lemma {:induction false} FlatConcat(a: seq<seq<Message>>, b: seq<seq<Message>>)
    ensures Flat(a + b) == Flat(a) + Flat(b)
  {
    if a == [] {
      assert a + b == b;
    } else {
      FlatConcat(a[1..], b);
      assert (a + b)[1..] == a[1..] + b && (a + b)[0] == a[0];
    }
  }

  lemma {:induction false} FlatLast(log: seq<seq<Message>>)
    requires log != [] && forall k :: 0 <= k < |log| ==> log[k] != []
    ensures Flat(log) != [] && LastOffset(Flat(log)) == LastOffset(log[|log| - 1])
  {
    if |log| == 1 {
      assert log[1..] == [] && Flat(log) == log[0];
    } else {
      FlatLast(log[1..]);
      assert log[1..][|log| - 2] == log[|log| - 1];
    }
  }

  lemma AscendingParts(a: seq<Message>, b: seq<Message>)
    requires Ascending(a + b)
    ensures Ascending(a) && Ascending(b) && forall x, y :: x in a && y in b ==> x.offset < y.offset
  {
    forall x, y | x in a && y in b ensures x.offset < y.offset {
      var i :| 0 <= i < |a| && a[i] == x;
      var j :| 0 <= j < |b| && b[j] == y;
      assert (a + b)[i] == x && (a + b)[|a| + j] == y;
    }
    assert forall i :: 0 <= i < |a| ==> (a + b)[i] == a[i];
    assert forall i :: 0 <= i < |b| ==> (a + b)[|a| + i] == b[i];
  }

  lemma LastIsMost(ms: seq<Message>)
    requires ms != [] && Ascending(ms)
    ensures forall m :: m in ms ==> m.offset <= LastOffset(ms)
  {
  }

  /** The log in three parts: behind the fetch, fetched, and beyond. */
  lemma LogParts(log: seq<seq<Message>>, i: nat, j: nat) returns (a: seq<Message>, b: seq<Message>, c: seq<Message>)
    requires LegacyLog(log) && i < j <= |log|
    ensures a == Flat(log[..i]) && b == Flat(log[i..j]) && c == Flat(log[j..]) && Flat(log) == a + b + c
    ensures Ascending(a) && Ascending(b) && (forall x, y :: x in b && y in c ==> x.offset < y.offset)
    ensures b != [] && LastOffset(b) == LastOffset(log[j - 1])
    ensures i > 0 ==> a != [] && LastOffset(a) == LastOffset(log[i - 1])
    ensures i == 0 ==> a == []
  {
    hide Ascending, Flat;
    a, b, c := Flat(log[..i]), Flat(log[i..j]), Flat(log[j..]);
    assert log == log[..i] + log[i..j] + log[j..];
    FlatConcat(log[..i] + log[i..j], log[j..]);
    FlatConcat(log[..i], log[i..j]);
    AscendingParts(a + b, c);
    AscendingParts(a, b);
    FlatLast(log[i..j]);
    assert log[i..j][j - i - 1] == log[j - 1];
    if i > 0 { FlatLast(log[..i]); assert log[..i][i - 1] == log[i - 1]; } else { FlatNone(); assert log[..i] == []; }
  }

  lemma FlatNone()
    ensures Flat([]) == []
  {
  }

  lemma MiddleOnly(a: seq<Message>, b: seq<Message>, c: seq<Message>, lo: int, hi: int)
    requires (forall m :: m in a ==> m.offset < lo) && forall m :: m in c ==> hi <= m.offset
    ensures Between(a + b + c, lo, hi) == Between(b, lo, hi)
  {
    BetweenNone(a, lo, hi);
    BetweenNone(c, lo, hi);
    BetweenConcat(a + b, c, lo, hi);
    BetweenConcat(a, b, lo, hi);
    hide Between;
  }

  /** A message set exposes exactly the messages of the log from the consumer's offset up to the offset
      it leaves, which is behind the last message fetched. */
  lemma SetShows(log: seq<seq<Message>>, off: int, blocks: seq<LegacyBlock>, i: nat, j: nat)
    requires LegacyLog(log) && i < j <= |log| && WrapsAll(blocks, log[i..j])
    requires (forall k :: 0 <= k < i ==> LastOffset(log[k]) < off) && off <= LastOffset(log[j - 1])
    ensures ParseMessages(blocks, off) == Parsed(Between(Flat(log), off, LastOffset(log[j - 1]) + 1), LastOffset(log[j - 1]) + 1)
  {
    hide WrapsAll, LegacyMessages, Flat, Ascending, Between;
    var a, b, c := LogParts(log, i, j);
    LogIsRead(blocks, log[i..j]);
    LastIsMost(b);
    if a != [] { LastIsMost(a); }
    var hi := LastOffset(b) + 1;
    assert b[|b| - 1] in b;
    TakeMessagesFilters(b, off, hi);
    TakeMessagesEnds(b, off);
    BetweenHas(b, off, hi, b[|b| - 1]);
    MiddleOnly(a, b, c, off, hi);
  }

  /** Reading from a to b exposed the messages between them, but for the offsets in `gone`. */
  ghost predicate Reads(log: seq<seq<Message>>, a: int, b: int, gone: set<int>, ms: seq<Message>) {
    a <= b && ms == Less(Between(Flat(log), a, b), gone) && forall x :: x in gone ==> a <= x < b
  }

  lemma ReadsOn(log: seq<seq<Message>>, a: int, b: int, c: int, gone: set<int>, gone': set<int>, ms: seq<Message>, ns: seq<Message>)
    requires LegacyLog(log) && Reads(log, a, b, gone, ms) && Reads(log, b, c, gone', ns)
    ensures Reads(log, a, c, gone + gone', ms + ns)
  {
    var all, v, w := Flat(log), Between(Flat(log), a, b), Between(Flat(log), b, c);
    BetweenSplit(all, a, b, c);
    LessConcat(v, w, gone + gone');
    forall m | m in v ensures m.offset in gone <==> m.offset in gone + gone' { BetweenHas(all, a, b, m); }
    forall m | m in w ensures m.offset in gone' <==> m.offset in gone + gone' { BetweenHas(all, b, c, m); }
    LessAlike(v, gone, gone + gone');
    LessAlike(w, gone', gone + gone');
  }

  lemma ReadsNothing(log: seq<seq<Message>>, off: int)
    ensures Reads(log, off, off, {}, [])
  {
    BetweenNone(Flat(log), off, off);
  }

  lemma SkipReads(log: seq<seq<Message>>, off: int)
    ensures Reads(log, off, off + 1, {off}, [])
  {
    var v := Between(Flat(log), off, off + 1);
    forall m | m in v ensures m.offset in {off} { BetweenHas(Flat(log), off, off + 1, m); }
    LessAll(v, {off});
  }

  lemma OneSet(conf: Config, pos: Position, b: Block, blocks: seq<LegacyBlock>)
    requires !b.failed && b.sets == [Legacy(blocks)] && blocks != []
    ensures var p := ParseMessages(blocks, pos.offset);
            ParseResponse(conf, pos, Found(b)) == (Ok(p.messages), Position(p.offset, conf.fetchDefault))
  {
    var p := ParseMessages(blocks, pos.offset);
    assert b.sets[1..] == [];
    hide ParseMessages, SortTxns;
    assert NumRecords(b.sets) == |blocks| + NumRecords([]);
    assert p.messages + [] == p.messages;
    assert ParseSets(b.sets, SortTxns(b.aborted), {}, pos.offset, conf.readCommitted) == Expose(p.messages, ParseSets([], SortTxns(b.aborted), {}, p.offset, conf.readCommitted));
  }

  lemma AnswerReads(conf: Config, log: seq<seq<Message>>, pos: Position, b: Block, i: nat, j: nat)
    requires LegacyAnswers(log, pos.offset, b, i, j) && !CutOff(b)
    ensures var (o, next) := ParseResponse(conf, pos, Found(b)); o.Ok? && Reads(log, pos.offset, next.offset, {}, o.messages)
  {
    hide Reads;
    if i == j {
      ReadsNothing(log, pos.offset);
    } else {
      var blocks :| b.sets == [Legacy(blocks)] && WrapsAll(blocks, log[i..j]);
      SetShows(log, pos.offset, blocks, i, j);
      OneSet(conf, pos, b, blocks);
      AllRead(log, pos.offset, LastOffset(log[j - 1]) + 1);
    }
  }

  lemma AllRead(log: seq<seq<Message>>, a: int, b: int)
    requires a <= b
    ensures Reads(log, a, b, {}, Between(Flat(log), a, b))
  {
    LessNothing(Between(Flat(log), a, b), {});
  }

  // ----------------------------------------------------------------------------- a whole run

  ghost predicate LegacyHonest(log: seq<seq<Message>>, pos: Position, r: Response) {
    r.Throttled? || r.Missing? || r.block.failed || CutOff(r.block) || exists i, j :: LegacyAnswers(log, pos.offset, r.block, i, j)
  }

  ghost predicate LegacyRun(conf: Config, log: seq<seq<Message>>, pos: Position, rs: seq<Response>)
    decreases rs
  {
    rs == [] || (LegacyHonest(log, pos, rs[0]) && LegacyRun(conf, log, ParseResponse(conf, pos, rs[0]).1, rs[1..]))
  }

  lemma HonestReads(conf: Config, log: seq<seq<Message>>, pos: Position, r: Response)
    requires LegacyHonest(log, pos, r)
    ensures var (o, next) := ParseResponse(conf, pos, r);
            Reads(log, pos.offset, next.offset, if Skips(conf, pos, r) then {pos.offset} else {}, Handed(o))
  {
    hide LegacyAnswers, Reads, NumRecords, ParseSets;
    if Skips(conf, pos, r) {
      SkipReads(log, pos.offset);
    } else if r.Throttled? || r.Missing? || r.block.failed || CutOff(r.block) {
      ReadsNothing(log, pos.offset);
    } else {
      var i, j :| LegacyAnswers(log, pos.offset, r.block, i, j);
      AnswerReads(conf, log, pos, r.block, i, j);
    }
  }

  /** Whatever the sizes of the responses, what is handed out of a log of message sets are exactly its
      messages, with their offsets and in order, from the starting offset up to the consumer's, but for
      offsets skipped for a message too large to fetch. */
  lemma {:induction false} ReadsTheLog(conf: Config, log: seq<seq<Message>>, pos: Position, rs: seq<Response>)
    requires LegacyLog(log) && LegacyRun(conf, log, pos, rs)
    ensures var (ms, end) := Consume(conf, pos, rs); Reads(log, pos.offset, end.offset, Skipped(conf, pos, rs), ms)
    decreases rs
  {
    hide LegacyLog, LegacyHonest, Reads, ParseResponse, Skips;
    if rs == [] {
      ReadsNothing(log, pos.offset);
    } else {
      var (o, next) := ParseResponse(conf, pos, rs[0]);
      HonestReads(conf, log, pos, rs[0]);
      ReadsTheLog(conf, log, next, rs[1..]);
      var (ms, end) := Consume(conf, next, rs[1..]);
      ReadsOn(log, pos.offset, next.offset, end.offset, if Skips(conf, pos, rs[0]) then {pos.offset} else {},
              Skipped(conf, next, rs[1..]), Handed(o), ms);
    }
  }
}
