/** What partitionConsumer does with one fetch response, as functions of the response and of the
    consumer's offset and fetch size. */
module FetchModel {
  datatype Option<+T> = None | Some(value: T)

  /** A record of a v2 batch; `delta` is its offset relative to the batch. */
  datatype Record = Record(delta: int, payload: int)

  /** What a batch is for: user data, or a transaction marker (`Damaged` when its control record does
      not decode). */
  datatype Purpose = UserData | Abort | Commit | Unknown | Damaged

  datatype Batch = Batch(first: int, lastDelta: int, producer: int, txn: bool, purpose: Purpose, records: seq<Record>)

  function Last(b: Batch): int {
    b.first + b.lastDelta
  }

  /** One message of a legacy message set, with the offset written on it and its format version. */
  datatype LegacyMessage = LegacyMessage(offset: int, version: int, payload: int)

  /** `messages` is what MessageBlock.Messages returns: the block itself, or the set it wraps. */
  datatype LegacyBlock = LegacyBlock(offset: int, messages: seq<LegacyMessage>)

  datatype Records = Legacy(blocks: seq<LegacyBlock>) | Default(batch: Batch)

  datatype AbortedTxn = AbortedTxn(producer: int, first: int)

  datatype Block = Block(
    failed: bool, partial: bool, lastBatchOffset: Option<int>, highWaterMark: int,
    aborted: seq<AbortedTxn>, sets: seq<Records>)

  datatype Response = Throttled | Missing | Found(block: Block)

  /** A message handed to the user. */
  datatype Message = Message(offset: int, payload: int)

  datatype Config = Config(fetchDefault: int, fetchMax: int, readCommitted: bool)

  datatype Position = Position(offset: int, fetchSize: int)

  /** The messages of a parse and the offset it leaves behind. */
  datatype Parsed = Parsed(messages: seq<Message>, offset: int)

  datatype Outcome = Ok(messages: seq<Message>) | TooLarge | Error

  // ------------------------------------------------------------------- one record batch

  function TakeRecords(recs: seq<Record>, first: int, off: int): Parsed {
    if recs == [] then Parsed([], off)
    else
      var o := first + recs[0].delta;
      if o < off then TakeRecords(recs[1..], first, off)
      else
        var p := TakeRecords(recs[1..], first, o + 1);
        p.(messages := [Message(o, recs[0].payload)] + p.messages)
  }

  function ParseRecords(b: Batch, off: int): Parsed {
    var p := TakeRecords(b.records, b.first, off);
    if p.messages == [] then p.(offset := p.offset + 1) else p
  }

  // --------------------------------------------------------------- a legacy message set

  function LegacyOffset(b: LegacyBlock, m: LegacyMessage): int
    requires b.messages != []
  {
    if m.version >= 1 then m.offset + b.offset - b.messages[|b.messages| - 1].offset else m.offset
  }

  function BlockOffsets(b: LegacyBlock): seq<Message> {
    seq(|b.messages|, i requires 0 <= i < |b.messages| => Message(LegacyOffset(b, b.messages[i]), b.messages[i].payload))
  }

  function LegacyMessages(blocks: seq<LegacyBlock>): seq<Message> {
    if blocks == [] then [] else BlockOffsets(blocks[0]) + LegacyMessages(blocks[1..])
  }

  function TakeMessages(ms: seq<Message>, off: int): Parsed {
    if ms == [] then Parsed([], off)
    else if ms[0].offset < off then TakeMessages(ms[1..], off)
    else
      var p := TakeMessages(ms[1..], ms[0].offset + 1);
      p.(messages := [ms[0]] + p.messages)
  }

  function ParseMessages(blocks: seq<LegacyBlock>, off: int): Parsed {
    var p := TakeMessages(LegacyMessages(blocks), off);
    if p.messages == [] then p.(offset := p.offset + 1) else p
  }

  // -------------------------------------------------------------- aborted transactions

  predicate SortedTxns(q: seq<AbortedTxn>) {
    forall i, j :: 0 <= i < j < |q| ==> q[i].first <= q[j].first
  }

  function InsertTxn(t: AbortedTxn, q: seq<AbortedTxn>): seq<AbortedTxn> {
    if q == [] || t.first <= q[0].first then [t] + q else [q[0]] + InsertTxn(t, q[1..])
  }

  /** getAbortedTransactions: the response's list, ordered by first offset. */
  function SortTxns(q: seq<AbortedTxn>): seq<AbortedTxn> {
    if q == [] then [] else InsertTxn(q[0], SortTxns(q[1..]))
  }

  lemma {:induction false} InsertTxnMembers(t: AbortedTxn, q: seq<AbortedTxn>)
    ensures multiset(InsertTxn(t, q)) == multiset(q) + multiset{t}
    ensures forall x :: x in InsertTxn(t, q) <==> x == t || x in q
  {
    if !(q == [] || t.first <= q[0].first) {
      InsertTxnMembers(t, q[1..]);
      assert q == [q[0]] + q[1..];
    }
  }

  lemma {:induction false} InsertTxnSorted(t: AbortedTxn, q: seq<AbortedTxn>)
    requires SortedTxns(q)
    ensures SortedTxns(InsertTxn(t, q))
  {
    if !(q == [] || t.first <= q[0].first) {
      InsertTxnSorted(t, q[1..]);
      InsertTxnMembers(t, q[1..]);
      var r := InsertTxn(t, q[1..]);
      assert forall x :: x in q[1..] ==> q[0].first <= x.first;
      assert forall k :: 0 <= k < |r| ==> r[k] in r;
    }
  }

  /** Sorting keeps the transactions and puts them in order of first offset. */
  lemma {:induction false} SortTxnsSorts(q: seq<AbortedTxn>)
    ensures SortedTxns(SortTxns(q)) && multiset(SortTxns(q)) == multiset(q)
    ensures forall x :: x in SortTxns(q) <==> x in q
  {
    if q != [] {
      SortTxnsSorts(q[1..]);
      InsertTxnSorted(q[0], SortTxns(q[1..]));
      InsertTxnMembers(q[0], SortTxns(q[1..]));
      assert q == [q[0]] + q[1..];
    }
  }

  /** How many of the sorted transactions start at or before `last`. */
  function Started(q: seq<AbortedTxn>, last: int): (n: nat)
    ensures n <= |q|
    ensures forall i :: 0 <= i < n ==> q[i].first <= last
    ensures n < |q| ==> q[n].first > last
  {
    if q == [] || q[0].first > last then 0 else 1 + Started(q[1..], last)
  }

  function Producers(q: seq<AbortedTxn>): set<int> {
    set t | t in q :: t.producer
  }

  // ------------------------------------------------------------------ a whole response

  datatype Scan = Scan(parsed: Parsed, ok: bool)

  /** The loop over the record sets: `pending` are the aborted transactions not reached yet and
      `aborting` the producers with an aborted transaction under way. */
  function ParseSets(sets: seq<Records>, pending: seq<AbortedTxn>, aborting: set<int>, off: int, readCommitted: bool): Scan {
    if sets == [] then Scan(Parsed([], off), true)
    else match sets[0]
      case Legacy(blocks) =>
        var p := ParseMessages(blocks, off);
        Expose(p.messages, ParseSets(sets[1..], pending, aborting, p.offset, readCommitted))
      case Default(b) =>
        var n := Started(pending, Last(b));
        var now := aborting + Producers(pending[..n]);
        var p := ParseRecords(b, off);
        if b.purpose != UserData then
          if b.records == [] || b.purpose == Damaged then Scan(Parsed([], p.offset), false)
          else
            var now' := if b.purpose == Abort then now - {b.producer} else now;
            ParseSets(sets[1..], pending[n..], now', p.offset, readCommitted)
        else
          var shown := if readCommitted && b.txn && b.producer in now then [] else p.messages;
          Expose(shown, ParseSets(sets[1..], pending[n..], now, p.offset, readCommitted))
  }

  function Expose(ms: seq<Message>, rest: Scan): Scan {
    rest.(parsed := rest.parsed.(messages := ms + rest.parsed.messages))
  }

  function NumRecords(sets: seq<Records>): nat {
    if sets == [] then 0
    else (match sets[0] case Legacy(blocks) => |blocks| case Default(b) => |b.records|) + NumRecords(sets[1..])
  }

  const MAX_INT32: int := 0x7fff_ffff

  /** The 32-bit result of an int32 operation. */
  function Wrap32(x: int): int {
    (x + 0x8000_0000) % 0x1_0000_0000 - 0x8000_0000
  }

  /** The fetch size to use after a response held only part of a message. */
  function GrowFetch(size: int, max: int): int {
    var d := Wrap32(size * 2);
    var d' := if d < 0 then MAX_INT32 else d;
    if max > 0 && d' > max then max else d'
  }

  function ParseResponse(conf: Config, pos: Position, r: Response): (Outcome, Position) {
    match r
    case Throttled => (Ok([]), pos)
    case Missing => (Error, pos)
    case Found(b) =>
      if b.failed then (Error, pos)
      else if NumRecords(b.sets) == 0 then
        if b.partial then
          if conf.fetchMax > 0 && pos.fetchSize == conf.fetchMax then (TooLarge, pos.(offset := pos.offset + 1))
          else (Ok([]), pos.(fetchSize := GrowFetch(pos.fetchSize, conf.fetchMax)))
        else if b.lastBatchOffset.Some? && b.lastBatchOffset.value < b.highWaterMark then
          (Ok([]), pos.(offset := b.lastBatchOffset.value + 1))
        else (Ok([]), pos)
      else
        var s := ParseSets(b.sets, SortTxns(b.aborted), {}, pos.offset, conf.readCommitted);
        (if s.ok then Ok(s.parsed.messages) else Error, Position(s.parsed.offset, conf.fetchDefault))
  }
}
