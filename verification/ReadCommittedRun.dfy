/** Runs of a partition consumer against a broker: everything it hands out, response after response,
    is what the log makes visible between where it started and where it stands. */
module ReadCommittedRun {
  import opened FetchModel
  import opened ReadCommitted

  /** The messages and the final position after a sequence of responses. */
  function Consume(conf: Config, pos: Position, rs: seq<Response>): (seq<Message>, Position)
    decreases rs
  {
    if rs == [] then ([], pos)
    else
      var (o, next) := ParseResponse(conf, pos, rs[0]);
      var (ms, end) := Consume(conf, next, rs[1..]);
      ((if o.Ok? then o.messages else []) + ms, end)
  }

  /** The response holds no record and only a part of a message or batch. */
  predicate CutOff(b: Block) {
    !b.failed && b.partial && NumRecords(b.sets) == 0
  }

  /** A response a broker holding `log` may give: throttled, failed, batches of the log, or only a part
      of the next one. */
  ghost predicate Honest(conf: Config, log: seq<Batch>, starts: seq<int>, pos: Position, r: Response) {
    || r.Throttled? || r.Missing? || r.block.failed || CutOff(r.block)
    || exists i, j :: Answers(log, starts, pos.offset, conf.readCommitted, r.block, i, j)
  }

  ghost predicate HonestRun(conf: Config, log: seq<Batch>, starts: seq<int>, pos: Position, rs: seq<Response>)
    decreases rs
  {
    rs == [] || (Honest(conf, log, starts, pos, rs[0])
                 && HonestRun(conf, log, starts, ParseResponse(conf, pos, rs[0]).1, rs[1..]))
  }

  // -------------------------------------------------------------- facts about Visible

  ghost predicate NoRecords(log: seq<Batch>, lo: int, hi: int) {
    forall k, r :: 0 <= k < |log| && 0 <= r < |log[k].records| ==>
      log[k].first + log[k].records[r].delta < lo || hi <= log[k].first + log[k].records[r].delta
  }

  lemma {:induction false} VisibleEmpty(log: seq<Batch>, k: nat, lo: int, hi: int, rc: bool)
    requires k <= |log| && NoRecords(log, lo, hi)
    ensures VisibleFrom(log, k, lo, hi, rc) == []
    decreases |log| - k
  {
    if k < |log| {
      InRangeNone(log[k].records, log[k].first, lo, hi);
      VisibleEmpty(log, k + 1, lo, hi, rc);
    }
  }

  lemma {:induction false} InRangeSplit(recs: seq<Record>, first: int, lo: int, mid: int, hi: int)
    requires lo <= mid <= hi
    requires forall r, q :: 0 <= r < q < |recs| ==> recs[r].delta < recs[q].delta
    ensures InRange(recs, first, lo, hi) == InRange(recs, first, lo, mid) + InRange(recs, first, mid, hi)
  {
    if recs != [] {
      InRangeSplit(recs[1..], first, lo, mid, hi);
      if first + recs[0].delta >= mid { InRangeNone(recs[1..], first, lo, mid); }
    }
  }

  lemma {:induction false} VisibleSplit(log: seq<Batch>, k: nat, lo: int, mid: int, hi: int, rc: bool)
    requires WellFormedLog(log) && k <= |log| && lo <= mid <= hi
    ensures VisibleFrom(log, k, lo, hi, rc) == VisibleFrom(log, k, lo, mid, rc) + VisibleFrom(log, k, mid, hi, rc)
    decreases |log| - k
  {
    hide Shown, InRange;
    if k < |log| {
      VisibleSplit(log, k + 1, lo, mid, hi, rc);
      InRangeSplit(log[k].records, log[k].first, lo, mid, hi);
      if Last(log[k]) < mid { InRangeNone(log[k].records, log[k].first, mid, hi); }
      else { VisibleNone(log, k + 1, lo, mid, rc); }
      var shown, recs, first := Shown(log, k, rc), log[k].records, log[k].first;
      hide WellFormedLog;
      Interleave(if shown then InRange(recs, first, lo, mid) else [], if shown then InRange(recs, first, mid, hi) else [],
                 VisibleFrom(log, k + 1, lo, mid, rc), VisibleFrom(log, k + 1, mid, hi, rc));
    }
  }

  lemma Interleave(a: seq<Message>, b: seq<Message>, c: seq<Message>, d: seq<Message>)
    requires b == [] || c == []
    ensures (a + b) + (c + d) == (a + c) + (b + d)
  {
  }

  /** Batches that end before `lo` add nothing. */
  lemma {:induction false} VisibleSkip(log: seq<Batch>, k: nat, i: nat, lo: int, hi: int, rc: bool)
    requires WellFormedLog(log) && k <= i <= |log| && forall m :: k <= m < i ==> Last(log[m]) < lo
    ensures VisibleFrom(log, k, lo, hi, rc) == VisibleFrom(log, i, lo, hi, rc)
    decreases i - k
  {
    if k < i {
      InRangeNone(log[k].records, log[k].first, lo, hi);
      VisibleSkip(log, k + 1, i, lo, hi, rc);
    }
  }

  /** Reading from a to b exposed `ms`, and if b is behind a there is nothing between them. */
  ghost predicate Read(log: seq<Batch>, a: int, b: int, rc: bool, ms: seq<Message>) {
    ms == Visible(log, a, b, rc) && (b < a ==> NoRecords(log, b, a))
  }

  lemma ReadThenRead(log: seq<Batch>, a: int, b: int, c: int, rc: bool, ms: seq<Message>, ns: seq<Message>)
    requires WellFormedLog(log) && Read(log, a, b, rc, ms) && Read(log, b, c, rc, ns)
    ensures Read(log, a, c, rc, ms + ns)
  {
    if b < a {
      VisibleEmpty(log, 0, a, b, rc);
      if c >= a { VisibleSplit(log, 0, b, a, c, rc); VisibleEmpty(log, 0, b, a, rc); }
      else { VisibleEmpty(log, 0, b, c, rc); VisibleEmpty(log, 0, a, c, rc); }
    } else if c < b {
      VisibleEmpty(log, 0, b, c, rc);
      if c >= a { VisibleSplit(log, 0, a, c, b, rc); VisibleEmpty(log, 0, c, b, rc); }
      else { VisibleEmpty(log, 0, a, b, rc); VisibleEmpty(log, 0, a, c, rc); }
    } else {
      VisibleSplit(log, 0, a, b, c, rc);
    }
  }

  // ------------------------------------------------------------------------- skipped offsets

  /** The fetch size cannot grow any further for a message that does not fit: its offset is skipped. */
  predicate Skips(conf: Config, pos: Position, r: Response) {
    r.Found? && CutOff(r.block) && conf.fetchMax > 0 && pos.fetchSize == conf.fetchMax
  }

  /** The offsets skipped in a run. */
  function Skipped(conf: Config, pos: Position, rs: seq<Response>): set<int>
    decreases rs
  {
    if rs == [] then {}
    else (if Skips(conf, pos, rs[0]) then {pos.offset} else {}) + Skipped(conf, ParseResponse(conf, pos, rs[0]).1, rs[1..])
  }

  /** The messages but those at the offsets in `gone`. */
  function Less(ms: seq<Message>, gone: set<int>): seq<Message> {
    if ms == [] then [] else (if ms[0].offset in gone then [] else [ms[0]]) + Less(ms[1..], gone)
  }

  lemma {:induction false} LessConcat(ms: seq<Message>, ns: seq<Message>, gone: set<int>)
    ensures Less(ms + ns, gone) == Less(ms, gone) + Less(ns, gone)
  {
    if ms == [] {
      assert ms + ns == ns;
    } else {
      assert (ms + ns)[1..] == ms[1..] + ns;
      LessConcat(ms[1..], ns, gone);
    }
  }

  lemma {:induction false} LessAlike(ms: seq<Message>, gone: set<int>, gone': set<int>)
    requires forall m :: m in ms ==> (m.offset in gone <==> m.offset in gone')
    ensures Less(ms, gone) == Less(ms, gone')
  {
    if ms != [] {
      assert ms[0] in ms;
      LessAlike(ms[1..], gone, gone');
    }
  }

  /** Nothing is taken away exactly when no message is at those offsets. */
  lemma {:induction false} LessNothing(ms: seq<Message>, gone: set<int>)
    ensures |Less(ms, gone)| <= |ms|
    ensures Less(ms, gone) == ms <==> forall m :: m in ms ==> m.offset !in gone
  {
    if ms != [] {
      LessNothing(ms[1..], gone);
      assert ms == [ms[0]] + ms[1..];
      if ms[0].offset !in gone && Less(ms, gone) == ms {
        assert Less(ms[1..], gone) == Less(ms, gone)[1..];
      }
    }
  }

  lemma {:induction false} LessAll(ms: seq<Message>, gone: set<int>)
    requires forall m :: m in ms ==> m.offset in gone
    ensures Less(ms, gone) == []
  {
    if ms != [] {
      assert ms[0] in ms;
      LessAll(ms[1..], gone);
    }
  }

  /** Some record of the log has this offset. */
  ghost predicate Holds(log: seq<Batch>, x: int) {
    exists k, r :: 0 <= k < |log| && 0 <= r < |log[k].records| && log[k].first + log[k].records[r].delta == x
  }

  /** Reading from a to b exposed `ms`, all there is to see but at the offsets in `gone`; if b is
      behind a there is nothing between them. */
  ghost predicate ReadBut(log: seq<Batch>, a: int, b: int, rc: bool, gone: set<int>, ms: seq<Message>) {
    && ms == Less(Visible(log, a, b, rc), gone) && (b < a ==> NoRecords(log, b, a))
    && forall x :: x in gone && Holds(log, x) ==> a <= x < b
  }

  lemma HoldsNone(log: seq<Batch>, lo: int, hi: int, x: int)
    requires NoRecords(log, lo, hi) && Holds(log, x)
    ensures x < lo || hi <= x
  {
  }

  lemma VisibleHolds(log: seq<Batch>, lo: int, hi: int, rc: bool, m: Message)
    requires m in Visible(log, lo, hi, rc)
    ensures lo <= m.offset < hi && Holds(log, m.offset)
  {
    VisibleMembers(log, 0, lo, hi, rc, m);
  }

  lemma ReadIsReadBut(log: seq<Batch>, a: int, b: int, rc: bool, ms: seq<Message>)
    requires Read(log, a, b, rc, ms)
    ensures ReadBut(log, a, b, rc, {}, ms)
  {
    hide Visible, NoRecords;
    LessNothing(ms, {});
  }

  /** Reading on composes, with the skipped offsets taken together. */
  lemma ReadButThenReadBut(log: seq<Batch>, a: int, b: int, c: int, rc: bool, gone: set<int>, gone': set<int>, ms: seq<Message>, ns: seq<Message>)
    requires WellFormedLog(log) && ReadBut(log, a, b, rc, gone, ms) && ReadBut(log, b, c, rc, gone', ns)
    ensures ReadBut(log, a, c, rc, gone + gone', ms + ns)
  {
    hide WellFormedLog, Visible, NoRecords, Holds;
    var v, w := Visible(log, a, b, rc), Visible(log, b, c, rc);
    ReadThenRead(log, a, b, c, rc, v, w);
    LessConcat(v, w, gone + gone');
    forall m | m in v ensures m.offset in gone <==> m.offset in gone + gone' { VisibleHolds(log, a, b, rc, m); }
    forall m | m in w ensures m.offset in gone' <==> m.offset in gone + gone' { VisibleHolds(log, b, c, rc, m); }
    LessAlike(v, gone, gone + gone');
    LessAlike(w, gone', gone + gone');
    forall x | x in gone + gone' && Holds(log, x) ensures a <= x < c {
      if x in gone { if c < b { HoldsNone(log, c, b, x); } } else if b < a { HoldsNone(log, b, a, x); }
    }
  }

  lemma SkipReadsBut(log: seq<Batch>, off: int, rc: bool)
    ensures ReadBut(log, off, off + 1, rc, {off}, [])
  {
    var v := Visible(log, off, off + 1, rc);
    hide Visible, Holds;
    forall m | m in v ensures m.offset in {off} { VisibleHolds(log, off, off + 1, rc, m); }
    LessAll(v, {off});
  }

  // ---------------------------------------------------------------------- one response

  function Floor(s: seq<int>): (f: int)
    ensures forall i :: 0 <= i < |s| ==> f < s[i]
  {
    if s == [] then 0
    else
      var f := Floor(s[1..]);
      if f < s[0] then f else s[0] - 1
  }

  /** Before the first batch nothing listed has started. */
  lemma TracksAtFirst(log: seq<Batch>, starts: seq<int>, aborted: seq<AbortedTxn>, i: nat, last: int) returns (reach: int)
    requires |starts| == |log| && i <= |log| && Listed(log, starts, aborted, i, last)
    ensures Tracks(log, starts, aborted, i, i, reach, SortTxns(aborted), {})
  {
    var firsts := seq(|log|, k requires 0 <= k < |log| => log[k].first);
    reach := Floor(firsts + starts);
    forall k | 0 <= k < |log| ensures reach < log[k].first && reach < starts[k] {
      assert (firsts + starts)[k] == log[k].first && (firsts + starts)[|log| + k] == starts[k];
    }
    SortTxnsSorts(aborted);
    forall t | t in aborted ensures t.first > reach {
      var m :| i <= m < |log| && log[m].purpose == Abort && t == AbortedTxn(log[m].producer, starts[m]);
    }
  }

  lemma {:induction false} NothingCarried(log: seq<Batch>, i: nat, j: nat)
    requires i <= j <= |log|
    ensures NumRecords(Carried(log, i, j)) == 0 <==> forall k :: i <= k < j ==> log[k].records == []
    decreases j - i
  {
    if i < j {
      CarriedHead(log, i, j);
      NothingCarried(log, i + 1, j);
    }
  }

  /** A response with records exposes what is visible up to the offset it leaves. */
  lemma RecordsRead(log: seq<Batch>, starts: seq<int>, off: int, rc: bool, b: Block, i: nat, j: nat)
    requires WellFormedLog(log) && WellFormedIndex(log, starts) && Answers(log, starts, off, rc, b, i, j)
    requires i < j
    ensures var s := ParseSets(b.sets, SortTxns(b.aborted), {}, off, rc);
            s.ok && Read(log, off, s.parsed.offset, rc, s.parsed.messages)
  {
    var last := Last(log[j - 1]);
    var pending := SortTxns(b.aborted);
    var reach := 0;
    if rc { reach := TracksAtFirst(log, starts, b.aborted, i, last); }
    forall m | i <= m < j ensures Last(log[m]) <= last {
      assert m < j - 1 ==> Last(log[m]) < log[j - 1].first;
    }
    hide Tracks, Listed, WellFormedIndex;
    ScanOffset(log, i, j, off, off, pending, {}, rc);
    ScanShows(log, starts, b.aborted, i, i, j, last, off, off, reach, pending, {}, rc);
    VisibleSkip(log, 0, i, off, ParseSets(b.sets, pending, {}, off, rc).parsed.offset, rc);
  }

  /** The jump over batches without records passes no record, forwards or backwards. */
  lemma JumpPassesNothing(log: seq<Batch>, starts: seq<int>, off: int, rc: bool, b: Block, i: nat, j: nat)
    requires WellFormedLog(log) && Answers(log, starts, off, rc, b, i, j) && i < j
    requires forall k :: i <= k < j ==> log[k].records == []
    ensures NoRecords(log, off, log[j - 1].first + 1) && NoRecords(log, log[j - 1].first + 1, off)
  {
    var c := log[j - 1].first + 1;
    forall k, r | 0 <= k < |log| && 0 <= r < |log[k].records|
      ensures var o := log[k].first + log[k].records[r].delta; (o < off || o >= c) && (o < c || o >= off)
    {
      if k < i { assert Last(log[k]) < log[j - 1].first; }
      if k >= j { assert Last(log[j - 1]) < log[k].first; }
    }
  }

  lemma ResponseRead(conf: Config, log: seq<Batch>, starts: seq<int>, pos: Position, b: Block, i: nat, j: nat)
    requires WellFormedLog(log) && WellFormedIndex(log, starts)
    requires Answers(log, starts, pos.offset, conf.readCommitted, b, i, j) && !CutOff(b)
    ensures var (o, next) := ParseResponse(conf, pos, Found(b));
            o.Ok? && Read(log, pos.offset, next.offset, conf.readCommitted, o.messages)
  {
    hide Answers, WellFormedLog, WellFormedIndex, ParseSets, NumRecords, NoRecords, Visible;
    AnswersWith(conf, log, starts, pos, b, i, j);
    if NumRecords(b.sets) != 0 {
      RecordsRead(log, starts, pos.offset, conf.readCommitted, b, i, j);
    } else {
      RecordlessRead(log, starts, pos.offset, conf.readCommitted, b, i, j);
    }
  }

  lemma AnswersWith(conf: Config, log: seq<Batch>, starts: seq<int>, pos: Position, b: Block, i: nat, j: nat)
    requires Answers(log, starts, pos.offset, conf.readCommitted, b, i, j)
    ensures !b.failed && (NumRecords(b.sets) != 0 ==> i < j)
  {
  }

  lemma RecordlessRead(log: seq<Batch>, starts: seq<int>, off: int, rc: bool, b: Block, i: nat, j: nat)
    requires WellFormedLog(log) && Answers(log, starts, off, rc, b, i, j) && NumRecords(b.sets) == 0
    ensures Read(log, off, off, rc, []) && (b.lastBatchOffset.Some? ==> Read(log, off, b.lastBatchOffset.value + 1, rc, []))
  {
    NothingCarried(log, i, j);
    VisibleNone(log, 0, off, off, rc);
    if i < j {
      JumpPassesNothing(log, starts, off, rc, b, i, j);
      VisibleEmpty(log, 0, off, log[j - 1].first + 1, rc);
    }
    hide NoRecords, VisibleFrom, Carried, Listed;
  }

  function Handed(o: Outcome): seq<Message> {
    if o.Ok? then o.messages else []
  }

  /** What one honest response exposes: all there is to see up to the offset it leaves, but for the one
      offset that is skipped when the response ends in an error for its size. */
  lemma HonestRead(conf: Config, log: seq<Batch>, starts: seq<int>, pos: Position, r: Response)
    requires WellFormedLog(log) && WellFormedIndex(log, starts) && Honest(conf, log, starts, pos, r)
    ensures var (o, next) := ParseResponse(conf, pos, r);
            && (o == TooLarge <==> Skips(conf, pos, r)) && (Skips(conf, pos, r) ==> next.offset == pos.offset + 1)
            && ReadBut(log, pos.offset, next.offset, conf.readCommitted, if Skips(conf, pos, r) then {pos.offset} else {}, Handed(o))
  {
    hide WellFormedLog, WellFormedIndex, Answers, Visible, NoRecords, Holds, NumRecords, ParseSets, ReadBut;
    var (o, next) := ParseResponse(conf, pos, r);
    if Skips(conf, pos, r) {
      SkipReadsBut(log, pos.offset, conf.readCommitted);
    } else if r.Throttled? || r.Missing? || r.block.failed || CutOff(r.block) {
      ReadNothing(log, pos.offset, conf.readCommitted);
    } else {
      var i, j :| Answers(log, starts, pos.offset, conf.readCommitted, r.block, i, j);
      ResponseRead(conf, log, starts, pos, r.block, i, j);
      ReadIsReadBut(log, pos.offset, next.offset, conf.readCommitted, o.messages);
    }
  }

  lemma ReadNothing(log: seq<Batch>, off: int, rc: bool)
    requires WellFormedLog(log)
    ensures ReadBut(log, off, off, rc, {}, [])
  {
    VisibleNone(log, 0, off, off, rc);
  }

  // --------------------------------------------------------------------------- a whole run

  /** Read-committed refinement: whatever the sizes of the responses, and however many of them are
      throttled or failed, the messages handed out are exactly the visible records from the starting
      offset up to the consumer's offset, in log order, none repeated, and none lost but at the offsets
      that were skipped for a message too large to fetch. */
  lemma {:induction false} ReadsWhatIsVisible(conf: Config, log: seq<Batch>, starts: seq<int>, pos: Position, rs: seq<Response>)
    requires WellFormedLog(log) && WellFormedIndex(log, starts) && HonestRun(conf, log, starts, pos, rs)
    ensures var (ms, end) := Consume(conf, pos, rs);
            ReadBut(log, pos.offset, end.offset, conf.readCommitted, Skipped(conf, pos, rs), ms)
    decreases rs
  {
    hide WellFormedLog, WellFormedIndex, ReadBut, ParseResponse, Honest, Skips;
    if rs == [] {
      ReadNothing(log, pos.offset, conf.readCommitted);
    } else {
      var (o, next) := ParseResponse(conf, pos, rs[0]);
      HonestRead(conf, log, starts, pos, rs[0]);
      ReadsWhatIsVisible(conf, log, starts, next, rs[1..]);
      var (ms, end) := Consume(conf, next, rs[1..]);
      ReadButThenReadBut(log, pos.offset, next.offset, end.offset, conf.readCommitted,
                         if Skips(conf, pos, rs[0]) then {pos.offset} else {}, Skipped(conf, next, rs[1..]), Handed(o), ms);
    }
  }

  /** A message that a consumer may see has this offset. */
  ghost predicate VisibleAt(log: seq<Batch>, rc: bool, x: int) {
    exists m: Message :: m.offset == x && IsShown(log, 0, rc, m)
  }

  /** Nothing is lost in a run if and only if no visible record is at an offset that was skipped. */
  lemma NothingLostIff(conf: Config, log: seq<Batch>, starts: seq<int>, pos: Position, rs: seq<Response>)
    requires WellFormedLog(log) && WellFormedIndex(log, starts) && HonestRun(conf, log, starts, pos, rs)
    ensures var (ms, end) := Consume(conf, pos, rs);
            && (ms == Visible(log, pos.offset, end.offset, conf.readCommitted) <==>
                forall x :: x in Skipped(conf, pos, rs) ==> !VisibleAt(log, conf.readCommitted, x))
            && (end.offset < pos.offset ==> NoRecords(log, end.offset, pos.offset))
  {
    var rc, gone := conf.readCommitted, Skipped(conf, pos, rs);
    var (ms, end) := Consume(conf, pos, rs);
    ReadsWhatIsVisible(conf, log, starts, pos, rs);
    var v := Visible(log, pos.offset, end.offset, rc);
    hide WellFormedLog, WellFormedIndex, HonestRun, Consume, Skipped, NoRecords, Visible, IsShown;
    LessNothing(v, gone);
    forall m: Message ensures m in v <==> pos.offset <= m.offset < end.offset && IsShown(log, 0, rc, m) { VisibleIs(log, pos.offset, end.offset, rc, m); }
    forall m: Message | IsShown(log, 0, rc, m) ensures Holds(log, m.offset) { ShownHolds(log, rc, m); }
  }

  lemma VisibleIs(log: seq<Batch>, lo: int, hi: int, rc: bool, m: Message)
    ensures m in Visible(log, lo, hi, rc) <==> lo <= m.offset < hi && IsShown(log, 0, rc, m)
  {
    VisibleMembers(log, 0, lo, hi, rc, m);
  }

  lemma ShownHolds(log: seq<Batch>, rc: bool, m: Message)
    requires IsShown(log, 0, rc, m)
    ensures Holds(log, m.offset)
  {
  }

  /** A visible record can be lost: one that does not fit into the largest fetch is never handed out. */
  lemma LargeMessageIsLost()
    ensures var log := [Batch(5, 0, 7, false, UserData, [Record(0, 42)])];
            var conf, pos := Config(1024, 1024, false), Position(5, 1024);
            var rs := [Found(Block(false, true, None, 6, [], []))];
            && WellFormedLog(log) && WellFormedIndex(log, [0]) && HonestRun(conf, log, [0], pos, rs)
            && Consume(conf, pos, rs) == ([], Position(6, 1024)) && Visible(log, 5, 6, false) == [Message(5, 42)]
  {
    var log := [Batch(5, 0, 7, false, UserData, [Record(0, 42)])];
    var conf, pos := Config(1024, 1024, false), Position(5, 1024);
    var rs := [Found(Block(false, true, None, 6, [], []))];
    assert rs[1..] == [];
    assert ParseResponse(conf, pos, rs[0]) == (TooLarge, Position(6, 1024));
    assert Consume(conf, Position(6, 1024), []) == ([], Position(6, 1024));
    var none: seq<Message> := [];
    assert Consume(conf, pos, rs) == (none + none, Position(6, 1024)) && none + none == none;
    assert HonestRun(conf, log, [0], Position(6, 1024), []);
    assert InRange(log[0].records[1..], 5, 5, 6) == [];
    assert InRange(log[0].records, 5, 5, 6) == [Message(5, 42)];
    assert VisibleFrom(log, 1, 5, 6, false) == [];
  }

  // ------------------------------------------------------------- what "visible" amounts to

  lemma {:induction false} InRangeMembers(recs: seq<Record>, first: int, lo: int, hi: int, m: Message)
    ensures m in InRange(recs, first, lo, hi) <==>
              lo <= m.offset < hi && exists r :: 0 <= r < |recs| && m == Message(first + recs[r].delta, recs[r].payload)
  {
    if recs != [] {
      InRangeMembers(recs[1..], first, lo, hi, m);
      var rest := recs[1..];
      if m in InRange(rest, first, lo, hi) {
        var r :| 0 <= r < |rest| && m == Message(first + rest[r].delta, rest[r].payload);
        assert recs[r + 1] == rest[r];
      }
      if lo <= m.offset < hi && exists r :: 0 <= r < |recs| && m == Message(first + recs[r].delta, recs[r].payload) {
        var r :| 0 <= r < |recs| && m == Message(first + recs[r].delta, recs[r].payload);
        assert r > 0 ==> rest[r - 1] == recs[r];
      }
    }
  }

  /** The message is a record of a batch from k on that a consumer may see. */
  ghost predicate IsShown(log: seq<Batch>, k: nat, rc: bool, m: Message) {
    exists i, r :: k <= i < |log| && 0 <= r < |log[i].records| && Shown(log, i, rc)
      && m == Message(log[i].first + log[i].records[r].delta, log[i].records[r].payload)
  }

  /** A message is visible exactly when it is a record of a shown batch and in range. */
  lemma {:induction false} VisibleMembers(log: seq<Batch>, k: nat, lo: int, hi: int, rc: bool, m: Message)
    requires k <= |log|
    ensures m in VisibleFrom(log, k, lo, hi, rc) <==> lo <= m.offset < hi && IsShown(log, k, rc, m)
    decreases |log| - k
  {
    hide Shown, InRange;
    if k < |log| {
      InRangeMembers(log[k].records, log[k].first, lo, hi, m);
      VisibleMembers(log, k + 1, lo, hi, rc, m);
      if IsShown(log, k, rc, m) {
        var i, r :| k <= i < |log| && 0 <= r < |log[i].records| && Shown(log, i, rc)
          && m == Message(log[i].first + log[i].records[r].delta, log[i].records[r].payload);
        assert i != k ==> IsShown(log, k + 1, rc, m);
      }
    }
  }

  ghost predicate Ascending(ms: seq<Message>) {
    forall i, j :: 0 <= i < j < |ms| ==> ms[i].offset < ms[j].offset
  }

  lemma {:induction false} InRangeAscends(recs: seq<Record>, first: int, lo: int, hi: int)
    requires forall r, q :: 0 <= r < q < |recs| ==> recs[r].delta < recs[q].delta
    ensures Ascending(InRange(recs, first, lo, hi))
  {
    if recs != [] {
      InRangeAscends(recs[1..], first, lo, hi);
      forall m | m in InRange(recs[1..], first, lo, hi) ensures first + recs[0].delta < m.offset {
        InRangeMembers(recs[1..], first, lo, hi, m);
      }
    }
  }

  /** Visible messages are in strictly ascending order of offset, so none is repeated. */
  lemma {:induction false} VisibleAscends(log: seq<Batch>, k: nat, lo: int, hi: int, rc: bool)
    requires WellFormedLog(log) && k <= |log|
    ensures Ascending(VisibleFrom(log, k, lo, hi, rc))
    decreases |log| - k
  {
    if k < |log| {
      InRangeAscends(log[k].records, log[k].first, lo, hi);
      VisibleAscends(log, k + 1, lo, hi, rc);
      forall m | m in InRange(log[k].records, log[k].first, lo, hi) ensures m.offset <= Last(log[k]) {
        InRangeMembers(log[k].records, log[k].first, lo, hi, m);
      }
      forall m | m in VisibleFrom(log, k + 1, lo, hi, rc) ensures m.offset > Last(log[k]) {
        VisibleMembers(log, k + 1, lo, hi, rc, m);
      }
    }
  }
}
