/** Reading a partition's log through fetch responses: what the user sees is exactly the log's
    visible records, whatever the sizes of the responses. */
module ReadCommitted {
  import opened FetchModel

  // --------------------------------------------------------------------------- the log

  predicate Marks(b: Batch) {
    b.purpose == Abort || b.purpose == Commit
  }

  predicate WellFormedBatch(b: Batch) {
    && 0 <= b.lastDelta && b.purpose != Damaged
    && (b.purpose != UserData ==> b.records != [])
    && (forall r :: 0 <= r < |b.records| ==> 0 <= b.records[r].delta <= b.lastDelta)
    && (forall r, q :: 0 <= r < q < |b.records| ==> b.records[r].delta < b.records[q].delta)
  }

  /** Batches do not overlap and are in offset order. Compaction may have removed any records of a
      data batch, also all of them. */
  predicate WellFormedLog(log: seq<Batch>) {
    && (forall i :: 0 <= i < |log| ==> WellFormedBatch(log[i]))
    && (forall i, j :: 0 <= i < j < |log| ==> Last(log[i]) < log[j].first)
  }

  /** The marker that ends producer p's transaction as seen from batch k; |log| when there is none. */
  function EndOf(log: seq<Batch>, k: nat, p: int): (e: nat)
    requires k <= |log|
    ensures k <= e <= |log|
    ensures e < |log| ==> Marks(log[e]) && log[e].producer == p
    ensures forall i :: k <= i < e ==> !(Marks(log[i]) && log[i].producer == p)
    decreases |log| - k
  {
    if k == |log| || (Marks(log[k]) && log[k].producer == p) then k else EndOf(log, k + 1, p)
  }

  predicate Committed(log: seq<Batch>, k: nat)
    requires k < |log|
  {
    var e := EndOf(log, k, log[k].producer);
    e < |log| && log[e].purpose == Commit
  }

  predicate Shown(log: seq<Batch>, k: nat, readCommitted: bool)
    requires k < |log|
  {
    log[k].purpose == UserData && (readCommitted && log[k].txn ==> Committed(log, k))
  }

  function InRange(recs: seq<Record>, first: int, lo: int, hi: int): seq<Message> {
    if recs == [] then []
    else
      var o := first + recs[0].delta;
      (if lo <= o < hi then [Message(o, recs[0].payload)] else []) + InRange(recs[1..], first, lo, hi)
  }

  function VisibleFrom(log: seq<Batch>, k: nat, lo: int, hi: int, readCommitted: bool): seq<Message>
    requires k <= |log|
    decreases |log| - k
  {
    if k == |log| then []
    else (if Shown(log, k, readCommitted) then InRange(log[k].records, log[k].first, lo, hi) else [])
         + VisibleFrom(log, k + 1, lo, hi, readCommitted)
  }

  /** The records with offsets from `lo` up to `hi` that a consumer may see, in log order. */
  function Visible(log: seq<Batch>, lo: int, hi: int, readCommitted: bool): seq<Message> {
    VisibleFrom(log, 0, lo, hi, readCommitted)
  }

  // --------------------------------------------------------------------- fetch responses

  /** Batch k belongs to the transaction that marker m ends. */
  predicate InTransaction(log: seq<Batch>, k: nat, m: nat)
    requires k < m < |log|
  {
    log[k].purpose == UserData && log[k].txn && EndOf(log, k, log[k].producer) == m
  }

  /** `starts[m]` is the first offset of the transaction that abort marker m ends: behind the
      producer's earlier markers and not behind any batch of the transaction. */
  ghost predicate WellFormedIndex(log: seq<Batch>, starts: seq<int>) {
    && |starts| == |log|
    && forall m :: 0 <= m < |log| && log[m].purpose == Abort ==>
         && starts[m] <= log[m].first
         && (forall k :: 0 <= k < m && Marks(log[k]) && log[k].producer == log[m].producer ==> Last(log[k]) < starts[m])
         && (forall k :: 0 <= k < m && InTransaction(log, k, m) ==> starts[m] <= log[k].first)
  }

  /** The record sets of a response that carries batches i up to j: empty batches are left out. */
  function Carried(log: seq<Batch>, i: nat, j: nat): seq<Records>
    requires i <= j <= |log|
    decreases j - i
  {
    if i == j then []
    else (if log[i].records == [] then [] else [Default(log[i])]) + Carried(log, i + 1, j)
  }

  ghost predicate Listed(log: seq<Batch>, starts: seq<int>, aborted: seq<AbortedTxn>, i: nat, last: int)
    requires |starts| == |log|
  {
    && (forall t :: t in aborted ==> exists m :: i <= m < |log| && log[m].purpose == Abort && t == AbortedTxn(log[m].producer, starts[m]))
    && (forall m :: i <= m < |log| && log[m].purpose == Abort && starts[m] <= last ==> AbortedTxn(log[m].producer, starts[m]) in aborted)
  }

  /** A broker's answer to a fetch at offset `off`: the batches from the first one that reaches
      `off`, as many as it likes; for a read-committed consumer only batches whose transactions are
      decided, and with them, in any order, the aborted transactions that reach the fetched range. The
      offset of the last batch matters only without records: with them it may be a cut-off batch's. */
  ghost predicate Answers(log: seq<Batch>, starts: seq<int>, off: int, readCommitted: bool, b: Block, i: nat, j: nat) {
    && |starts| == |log| && i <= j <= |log| && !b.failed
    && (forall k :: 0 <= k < i ==> Last(log[k]) < off)
    && (forall k :: i <= k < |log| ==> off <= Last(log[k]))
    && b.sets == Carried(log, i, j)
    && (NumRecords(b.sets) == 0 ==> b.lastBatchOffset == if i == j then None else Some(log[j - 1].first))
    && (readCommitted && i < j ==> Listed(log, starts, b.aborted, i, Last(log[j - 1])))
    && (readCommitted ==> forall k :: i <= k < j && log[k].purpose == UserData && log[k].txn ==> EndOf(log, k, log[k].producer) < |log|)
  }

  // ------------------------------------------------------------------------ one batch

  /** On increasing offsets, skipping what is behind `off` is a filter. */
  lemma {:induction false} TakeRecordsFilters(recs: seq<Record>, first: int, off: int, hi: int)
    requires forall r, q :: 0 <= r < q < |recs| ==> recs[r].delta < recs[q].delta
    requires forall r :: 0 <= r < |recs| ==> first + recs[r].delta < hi
    ensures var p := TakeRecords(recs, first, off);
            && p.messages == InRange(recs, first, off, hi)
            && off <= p.offset
            && (p.messages == [] ==> p.offset == off)
            && (p.messages != [] ==> p.offset == first + recs[|recs| - 1].delta + 1 > off)
            && (recs != [] && off <= first + recs[|recs| - 1].delta ==> p.messages != [])
  {
    if recs != [] {
      var o := first + recs[0].delta;
      if o < off {
        TakeRecordsFilters(recs[1..], first, off, hi);
      } else {
        TakeRecordsFilters(recs[1..], first, o + 1, hi);
        InRangeAbove(recs[1..], first, o + 1, off, hi);
      }
    }
  }

  /** The lower bound does not matter below the smallest offset. */
  lemma {:induction false} InRangeAbove(recs: seq<Record>, first: int, a: int, b: int, hi: int)
    requires forall r :: 0 <= r < |recs| ==> first + recs[r].delta >= a && first + recs[r].delta >= b
    ensures InRange(recs, first, a, hi) == InRange(recs, first, b, hi)
  {
    if recs != [] { InRangeAbove(recs[1..], first, a, b, hi); }
  }

  lemma {:induction false} InRangeNone(recs: seq<Record>, first: int, lo: int, hi: int)
    requires forall r :: 0 <= r < |recs| ==> first + recs[r].delta < lo || first + recs[r].delta >= hi
    ensures InRange(recs, first, lo, hi) == []
  {
    if recs != [] { InRangeNone(recs[1..], first, lo, hi); }
  }

  /** Where the consumer stands before batch k of a response fetched at `from`. */
  ghost predicate Stands(log: seq<Batch>, k: nat, from: int, off: int) {
    off == from || (from <= off && forall i :: k <= i < |log| ==> off <= log[i].first)
  }

  lemma BatchRead(log: seq<Batch>, k: nat, from: int, off: int, hi: int)
    requires WellFormedLog(log) && k < |log| && Stands(log, k, from, off)
    requires forall r :: 0 <= r < |log[k].records| ==> log[k].first + log[k].records[r].delta < hi
    ensures ParseRecords(log[k], off).messages == InRange(log[k].records, log[k].first, from, hi)
  {
    var b := log[k];
    TakeRecordsFilters(b.records, b.first, off, hi);
    if off != from { InRangeAbove(b.records, b.first, off, from, hi); }
  }

  /** All records of a batch are behind the offset its parse leaves, and that offset is not past the
      end of the batch. */
  lemma BatchBounds(log: seq<Batch>, k: nat, from: int, off: int)
    requires WellFormedLog(log) && k < |log| && log[k].records != [] && from <= Last(log[k])
    requires Stands(log, k, from, off)
    ensures var p := ParseRecords(log[k], off);
            && off < p.offset
            && Stands(log, k + 1, from, p.offset)
            && forall r :: 0 <= r < |log[k].records| ==> log[k].first + log[k].records[r].delta < p.offset
  {
    var b := log[k];
    TakeRecordsFilters(b.records, b.first, off, Last(b) + 1);
  }

  // --------------------------------------------------------------- the aborted producers

  /** Before batch k: `reach` is the end of the last non-empty batch read, `pending` the listed
      transactions that start behind it, and `aborting` the producers of those that start before it
      and whose abort marker is still to come. */
  ghost predicate Tracks(log: seq<Batch>, starts: seq<int>, aborted: seq<AbortedTxn>, i: nat, k: nat,
                         reach: int, pending: seq<AbortedTxn>, aborting: set<int>)
    requires |starts| == |log|
  {
    && SortedTxns(pending)
    && (forall t :: t in pending <==> t in aborted && t.first > reach)
    && (forall m :: i <= m < k <= |log| && log[m].records != [] ==> Last(log[m]) <= reach)
    && (forall m :: k <= m < |log| ==> reach < log[m].first)
    && (forall p :: p in aborting <==> Aborting(log, starts, aborted, k, reach, p))
  }

  ghost predicate Aborting(log: seq<Batch>, starts: seq<int>, aborted: seq<AbortedTxn>, k: nat, reach: int, p: int)
    requires |starts| == |log|
  {
    exists m :: k <= m < |log| && log[m].purpose == Abort && log[m].producer == p && starts[m] <= reach
      && AbortedTxn(p, starts[m]) in aborted
  }

  lemma StartedIsAborting(log: seq<Batch>, starts: seq<int>, aborted: seq<AbortedTxn>, i: nat, k: nat, last: int,
                          reach: int, pending: seq<AbortedTxn>, aborting: set<int>, t: AbortedTxn)
    requires WellFormedIndex(log, starts) && WellFormedLog(log) && i <= k < |log|
    requires Listed(log, starts, aborted, i, last) && Tracks(log, starts, aborted, i, k, reach, pending, aborting)
    requires t in pending && t.first <= Last(log[k])
    ensures Aborting(log, starts, aborted, k, Last(log[k]), t.producer)
  {
    var m :| i <= m < |log| && log[m].purpose == Abort && t == AbortedTxn(log[m].producer, starts[m]);
    assert m >= k;
  }

  lemma AbortingIsStarted(log: seq<Batch>, starts: seq<int>, aborted: seq<AbortedTxn>, i: nat, k: nat,
                          reach: int, pending: seq<AbortedTxn>, aborting: set<int>, p: int)
    requires |starts| == |log| && i <= k < |log|
    requires Tracks(log, starts, aborted, i, k, reach, pending, aborting)
    requires Aborting(log, starts, aborted, k, Last(log[k]), p)
    ensures p in aborting + Producers(pending[..Started(pending, Last(log[k]))])
  {
    var l := Last(log[k]);
    var n := Started(pending, l);
    var m :| k <= m < |log| && log[m].purpose == Abort && log[m].producer == p && starts[m] <= l && AbortedTxn(p, starts[m]) in aborted;
    if starts[m] > reach {
      var t := AbortedTxn(p, starts[m]);
      var x :| 0 <= x < |pending| && pending[x] == t;
      assert x < n;
      assert pending[..n][x] == t;
    } else {
      assert Aborting(log, starts, aborted, k, reach, p);
    }
  }

  /** Reaching batch k starts the transactions up to its end. */
  lemma ReachBatch(log: seq<Batch>, starts: seq<int>, aborted: seq<AbortedTxn>, i: nat, k: nat, last: int,
                   reach: int, pending: seq<AbortedTxn>, aborting: set<int>)
    requires WellFormedLog(log) && WellFormedIndex(log, starts) && i <= k < |log|
    requires Listed(log, starts, aborted, i, last) && Tracks(log, starts, aborted, i, k, reach, pending, aborting)
    ensures var n := Started(pending, Last(log[k]));
            forall p :: p in aborting + Producers(pending[..n]) <==> Aborting(log, starts, aborted, k, Last(log[k]), p)
  {
    var l := Last(log[k]);
    var n := Started(pending, l);
    forall p | p in Producers(pending[..n]) ensures Aborting(log, starts, aborted, k, l, p) {
      var t :| t in pending[..n] && t.producer == p;
      StartedIsAborting(log, starts, aborted, i, k, last, reach, pending, aborting, t);
    }
    forall p | Aborting(log, starts, aborted, k, l, p) ensures p in aborting + Producers(pending[..n]) {
      AbortingIsStarted(log, starts, aborted, i, k, reach, pending, aborting, p);
    }
    forall p | p in aborting ensures Aborting(log, starts, aborted, k, l, p) {
      AbortingLater(log, starts, aborted, k, reach, l, p);
    }
  }

  lemma AbortingLater(log: seq<Batch>, starts: seq<int>, aborted: seq<AbortedTxn>, k: nat, a: int, b: int, p: int)
    requires |starts| == |log| && a <= b && Aborting(log, starts, aborted, k, a, p)
    ensures Aborting(log, starts, aborted, k, b, p)
  {
  }

  /** Past batch k: an abort marker ends its producer's transaction and no other starts before it. */
  lemma PassBatch(log: seq<Batch>, starts: seq<int>, aborted: seq<AbortedTxn>, k: nat, p: int)
    requires WellFormedLog(log) && WellFormedIndex(log, starts) && k < |log|
    ensures Aborting(log, starts, aborted, k + 1, Last(log[k]), p) <==>
              Aborting(log, starts, aborted, k, Last(log[k]), p) && !(log[k].purpose == Abort && log[k].producer == p)
  {
    var l := Last(log[k]);
    if Aborting(log, starts, aborted, k, l, p) && !(log[k].purpose == Abort && log[k].producer == p) {
      var m :| k <= m < |log| && log[m].purpose == Abort && log[m].producer == p && starts[m] <= l && AbortedTxn(p, starts[m]) in aborted;
      assert m != k;
    }
  }

  /** For a decided batch, its producer is aborting exactly when its transaction was aborted. */
  lemma AbortingIsAborted(log: seq<Batch>, starts: seq<int>, aborted: seq<AbortedTxn>, i: nat, k: nat, last: int)
    requires WellFormedLog(log) && WellFormedIndex(log, starts) && i <= k < |log| && Last(log[k]) <= last
    requires Listed(log, starts, aborted, i, last)
    requires log[k].purpose == UserData && log[k].txn && EndOf(log, k, log[k].producer) < |log|
    ensures Aborting(log, starts, aborted, k, Last(log[k]), log[k].producer) <==> !Committed(log, k)
  {
    var p := log[k].producer;
    var e := EndOf(log, k, p);
    var l := Last(log[k]);
    if log[e].purpose == Abort {
      assert InTransaction(log, k, e);
      assert starts[e] <= log[k].first <= l;
      assert Aborting(log, starts, aborted, k, l, p);
    }
  }

  lemma TracksPastBatch(log: seq<Batch>, starts: seq<int>, aborted: seq<AbortedTxn>, i: nat, k: nat, last: int,
                        reach: int, pending: seq<AbortedTxn>, aborting: set<int>)
    requires WellFormedLog(log) && WellFormedIndex(log, starts) && i <= k < |log|
    requires Listed(log, starts, aborted, i, last) && Tracks(log, starts, aborted, i, k, reach, pending, aborting)
    ensures var n := Started(pending, Last(log[k]));
            var now := aborting + Producers(pending[..n]);
            var then' := if log[k].purpose == Abort then now - {log[k].producer} else now;
            Tracks(log, starts, aborted, i, k + 1, Last(log[k]), pending[n..], then')
  {
    var l := Last(log[k]);
    var n := Started(pending, l);
    var now := aborting + Producers(pending[..n]);
    var then' := if log[k].purpose == Abort then now - {log[k].producer} else now;
    ReachBatch(log, starts, aborted, i, k, last, reach, pending, aborting);
    forall p ensures p in then' <==> Aborting(log, starts, aborted, k + 1, l, p) {
      PassBatch(log, starts, aborted, k, p);
    }
    hide Aborting;
    assert reach < log[k].first <= l;
    PendingRest(pending, l);
    forall m | i <= m < k + 1 && log[m].records != [] ensures Last(log[m]) <= l {
      assert m < k ==> Last(log[m]) <= reach;
    }
  }

  lemma PendingRest(q: seq<AbortedTxn>, l: int)
    requires SortedTxns(q)
    ensures SortedTxns(q[Started(q, l)..])
    ensures forall t :: t in q[Started(q, l)..] <==> t in q && t.first > l
  {
    var n := Started(q, l);
    forall t | t in q && t.first > l ensures t in q[n..] {
      var x :| 0 <= x < |q| && q[x] == t;
      assert q[n..][x - n] == t;
    }
  }

  lemma TracksPastEmpty(log: seq<Batch>, starts: seq<int>, aborted: seq<AbortedTxn>, i: nat, k: nat,
                        reach: int, pending: seq<AbortedTxn>, aborting: set<int>)
    requires WellFormedLog(log) && |starts| == |log| && i <= k < |log| && log[k].records == []
    requires Tracks(log, starts, aborted, i, k, reach, pending, aborting)
    ensures Tracks(log, starts, aborted, i, k + 1, reach, pending, aborting)
  {
    assert log[k].purpose != Abort;
    forall p ensures Aborting(log, starts, aborted, k, reach, p) <==> Aborting(log, starts, aborted, k + 1, reach, p) {
      if Aborting(log, starts, aborted, k, reach, p) {
        var m :| k <= m < |log| && log[m].purpose == Abort && log[m].producer == p && starts[m] <= reach && AbortedTxn(p, starts[m]) in aborted;
        assert m != k;
      }
    }
  }

  // ---------------------------------------------------------------------- the whole scan

  lemma {:induction false} VisibleNone(log: seq<Batch>, k: nat, lo: int, hi: int, rc: bool)
    requires WellFormedLog(log) && k <= |log|
    requires lo == hi || forall i :: k <= i < |log| ==> hi <= log[i].first || Last(log[i]) < lo
    ensures VisibleFrom(log, k, lo, hi, rc) == []
    decreases |log| - k
  {
    if k < |log| {
      InRangeNone(log[k].records, log[k].first, lo, hi);
      VisibleNone(log, k + 1, lo, hi, rc);
    }
  }

  lemma CarriedHead(log: seq<Batch>, k: nat, j: nat)
    requires k < j <= |log|
    ensures var c := Carried(log, k, j);
            if log[k].records == [] then c == Carried(log, k + 1, j)
            else c != [] && c[0] == Default(log[k]) && c[1..] == Carried(log, k + 1, j)
  {
  }

  /** The producers aborting once batch `b` has been reached. */
  ghost function Now(b: Batch, pending: seq<AbortedTxn>, aborting: set<int>): set<int> {
    aborting + Producers(pending[..Started(pending, Last(b))])
  }

  /** The producers aborting once batch `b` has been passed. */
  ghost function Then(b: Batch, pending: seq<AbortedTxn>, aborting: set<int>): set<int> {
    if b.purpose == Abort then Now(b, pending, aborting) - {b.producer} else Now(b, pending, aborting)
  }

  /** What the scan exposes of batch `b`. */
  ghost function ShownOf(b: Batch, pending: seq<AbortedTxn>, aborting: set<int>, off: int, rc: bool): seq<Message> {
    if b.purpose != UserData || (rc && b.txn && b.producer in Now(b, pending, aborting)) then []
    else ParseRecords(b, off).messages
  }

  lemma ScanStep(sets: seq<Records>, b: Batch, pending: seq<AbortedTxn>, aborting: set<int>, off: int, rc: bool)
    requires sets != [] && sets[0] == Default(b) && b.records != [] && b.purpose != Damaged
    ensures ParseSets(sets, pending, aborting, off, rc) ==
              Expose(ShownOf(b, pending, aborting, off, rc),
                     ParseSets(sets[1..], pending[Started(pending, Last(b))..], Then(b, pending, aborting),
                               ParseRecords(b, off).offset, rc))
  {
    var rest := ParseSets(sets[1..], pending[Started(pending, Last(b))..], Then(b, pending, aborting), ParseRecords(b, off).offset, rc);
    assert Expose([], rest) == rest by { assert [] + rest.parsed.messages == rest.parsed.messages; }
  }

  lemma ScanNone(log: seq<Batch>, k: nat, pending: seq<AbortedTxn>, aborting: set<int>, off: int, rc: bool)
    requires k <= |log|
    ensures ParseSets(Carried(log, k, k), pending, aborting, off, rc) == Scan(Parsed([], off), true)
  {
  }

  lemma StandsPast(log: seq<Batch>, k: nat, from: int, off: int)
    requires Stands(log, k, from, off)
    ensures Stands(log, k + 1, from, off)
  {
  }

  lemma BatchSound(log: seq<Batch>, k: nat)
    requires WellFormedLog(log) && k < |log|
    ensures log[k].purpose != Damaged
  {
  }

  /** The offset a scan leaves is where its last batch left it. */
  lemma {:induction false} ScanOffset(log: seq<Batch>, k: nat, j: nat, from: int, off: int,
                                      pending: seq<AbortedTxn>, aborting: set<int>, rc: bool)
    requires WellFormedLog(log) && k <= j <= |log| && Stands(log, k, from, off)
    requires forall i :: k <= i < |log| ==> from <= Last(log[i])
    ensures var s := ParseSets(Carried(log, k, j), pending, aborting, off, rc);
            s.ok && off <= s.parsed.offset && Stands(log, j, from, s.parsed.offset)
    decreases j - k
  {
    hide ParseSets, ParseRecords, Carried, WellFormedLog, Stands, Started, Then;
    if k == j {
      ScanNone(log, k, pending, aborting, off, rc);
    } else {
      CarriedHead(log, k, j);
      var b := log[k];
      if b.records == [] {
        StandsPast(log, k, from, off);
        ScanOffset(log, k + 1, j, from, off, pending, aborting, rc);
      } else {
        BatchSound(log, k);
        ScanStep(Carried(log, k, j), b, pending, aborting, off, rc);
        BatchBounds(log, k, from, off);
        ScanOffset(log, k + 1, j, from, ParseRecords(b, off).offset,
                   pending[Started(pending, Last(b))..], Then(b, pending, aborting), rc);
      }
    }
  }

  ghost predicate Decided(log: seq<Batch>, k: nat, j: nat) {
    forall i :: k <= i < j <= |log| && log[i].purpose == UserData && log[i].txn ==> EndOf(log, i, log[i].producer) < |log|
  }

  /** Of one batch the scan exposes what is visible of it. */
  lemma BatchShown(log: seq<Batch>, starts: seq<int>, aborted: seq<AbortedTxn>, i: nat, k: nat, j: nat, last: int,
                   from: int, off: int, hi: int, reach: int, pending: seq<AbortedTxn>, aborting: set<int>, rc: bool)
    requires WellFormedLog(log) && WellFormedIndex(log, starts) && i <= k < j <= |log| && Last(log[k]) <= last
    requires Stands(log, k, from, off) && (rc ==> Decided(log, k, j))
    requires forall r :: 0 <= r < |log[k].records| ==> log[k].first + log[k].records[r].delta < hi
    requires rc ==> Listed(log, starts, aborted, i, last) && Tracks(log, starts, aborted, i, k, reach, pending, aborting)
    ensures ShownOf(log[k], pending, aborting, off, rc) ==
              if Shown(log, k, rc) then InRange(log[k].records, log[k].first, from, hi) else []
  {
    BatchRead(log, k, from, off, hi);
    if rc && log[k].purpose == UserData && log[k].txn {
      ReachBatch(log, starts, aborted, i, k, last, reach, pending, aborting);
      AbortingIsAborted(log, starts, aborted, i, k, last);
    }
  }

  /** A scan over batches k up to j exposes exactly what is visible between the fetched offset and
      the offset it leaves. */
  lemma {:induction false} ScanShows(log: seq<Batch>, starts: seq<int>, aborted: seq<AbortedTxn>, i: nat, k: nat, j: nat, last: int,
                                     from: int, off: int, reach: int, pending: seq<AbortedTxn>, aborting: set<int>, rc: bool)
    requires WellFormedLog(log) && WellFormedIndex(log, starts) && i <= k <= j <= |log|
    requires forall m :: k <= m < j ==> Last(log[m]) <= last
    requires Stands(log, k, from, off) && (rc ==> Decided(log, k, j))
    requires forall m :: k <= m < |log| ==> from <= Last(log[m])
    requires rc ==> Listed(log, starts, aborted, i, last) && Tracks(log, starts, aborted, i, k, reach, pending, aborting)
    ensures var s := ParseSets(Carried(log, k, j), pending, aborting, off, rc);
            s.parsed.messages == VisibleFrom(log, k, from, s.parsed.offset, rc)
    decreases j - k
  {
    ScanOffset(log, k, j, from, off, pending, aborting, rc);
    var s := ParseSets(Carried(log, k, j), pending, aborting, off, rc);
    var hi := s.parsed.offset;
    if k == j {
      VisibleNone(log, k, from, hi, rc);
    } else {
      CarriedHead(log, k, j);
      if log[k].records == [] {
        if rc { TracksPastEmpty(log, starts, aborted, i, k, reach, pending, aborting); }
        ScanShows(log, starts, aborted, i, k + 1, j, last, from, off, reach, pending, aborting, rc);
      } else {
        var b := log[k];
        var rest, then' := pending[Started(pending, Last(b))..], Then(b, pending, aborting);
        ScanStep(Carried(log, k, j), b, pending, aborting, off, rc);
        BatchBounds(log, k, from, off);
        hide ParseSets, ParseRecords, Carried, WellFormedLog, Listed, Stands;
        ScanOffset(log, k + 1, j, from, ParseRecords(b, off).offset, rest, then', rc);
        BatchShown(log, starts, aborted, i, k, j, last, from, off, hi, reach, pending, aborting, rc);
        if rc { TracksPastBatch(log, starts, aborted, i, k, last, reach, pending, aborting); }
        hide Tracks, WellFormedIndex;
        ScanShows(log, starts, aborted, i, k + 1, j, last, from, ParseRecords(b, off).offset, Last(b), rest, then', rc);
      }
    }
  }
}
