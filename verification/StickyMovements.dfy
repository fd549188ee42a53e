/** The bookkeeping of the sticky assignor: which partitions have been moved between which members
    since planning began, kept once by partition and once, as an index, by topic and member pair. */
module StickyMovements {
  /** Names of topics and IDs of members stand for their rank in string order. */
  datatype Topic = Topic(rank: int)

  datatype Member = Member(rank: int)

  datatype Partition = Partition(topic: Topic, number: int)

  datatype Pair = Pair(src: Member, dst: Member)

  type Index = map<Topic, map<Pair, set<Partition>>>

  datatype Moves = Moves(records: map<Partition, Pair>, byTopic: Index)

  // ------------------------------------------------------------------- the two structures

  function Under(index: Index, t: Topic, pair: Pair): set<Partition> {
    if t in index && pair in index[t] then index[t][pair] else {}
  }

  /** The index holds a partition under a pair exactly when the records map it to that pair, and it
      holds no empty inner map. */
  ghost predicate Indexed(mv: Moves) {
    && (forall t, pair, p :: p in Under(mv.byTopic, t, pair) <==> p in mv.records && mv.records[p] == pair && p.topic == t)
    && (forall t :: t in mv.byTopic ==> mv.byTopic[t] != map[])
    && (forall t, pair :: t in mv.byTopic && pair in mv.byTopic[t] ==> mv.byTopic[t][pair] != {})
  }

  const NO_MOVES := Moves(map[], map[])

  function Unindexed(index: Index, p: Partition, pair: Pair): Index
    requires p.topic in index && pair in index[p.topic]
  {
    var left := index[p.topic][pair] - {p};
    var inner := if left == {} then index[p.topic] - {pair} else index[p.topic][pair := left];
    if inner == map[] then index - {p.topic} else index[p.topic := inner]
  }

  function RemoveRecord(mv: Moves, p: Partition): Moves
    requires p in mv.records && p in Under(mv.byTopic, p.topic, mv.records[p])
  {
    Moves(mv.records - {p}, Unindexed(mv.byTopic, p, mv.records[p]))
  }

  function AddRecord(mv: Moves, p: Partition, pair: Pair): Moves {
    var inner := if p.topic in mv.byTopic then mv.byTopic[p.topic] else map[];
    var group := if pair in inner then inner[pair] else {};
    Moves(mv.records[p := pair], mv.byTopic[p.topic := inner[pair := group + {p}]])
  }

  function MoveRecord(mv: Moves, p: Partition, from: Member, to: Member): Moves
    requires Indexed(mv)
  {
    if p !in mv.records then AddRecord(mv, p, Pair(from, to))
    else
      var was := mv.records[p];
      assert p in Under(mv.byTopic, p.topic, was);
      var rest := RemoveRecord(mv, p);
      if was.src != to then AddRecord(rest, p, Pair(was.src, to)) else rest
  }

  lemma RemoveKeepsIndex(mv: Moves, p: Partition)
    requires Indexed(mv) && p in mv.records
    ensures p in Under(mv.byTopic, p.topic, mv.records[p]) && Indexed(RemoveRecord(mv, p))
  {
    var pair := mv.records[p];
    var t := p.topic;
    assert p in Under(mv.byTopic, t, pair);
    var index := Unindexed(mv.byTopic, p, pair);
    forall u, q ensures Under(index, u, q) == if u == t && q == pair then Under(mv.byTopic, t, pair) - {p} else Under(mv.byTopic, u, q) {
      var left := mv.byTopic[t][pair] - {p};
      var inner := if left == {} then mv.byTopic[t] - {pair} else mv.byTopic[t][pair := left];
      if u == t && q != pair && q in mv.byTopic[t] { assert q in inner; }
    }
    assert forall u, q, x :: x in Under(index, u, q) <==> x in mv.records - {p} && mv.records[x] == q && x.topic == u;
  }

  lemma AddUnder(mv: Moves, p: Partition, pair: Pair, u: Topic, q: Pair)
    ensures Under(AddRecord(mv, p, pair).byTopic, u, q) == Under(mv.byTopic, u, q) + if u == p.topic && q == pair then {p} else {}
  {
  }

  lemma AddNoEmpty(mv: Moves, p: Partition, pair: Pair)
    requires Indexed(mv)
    ensures var index := AddRecord(mv, p, pair).byTopic;
            && (forall t :: t in index ==> index[t] != map[])
            && (forall t, q :: t in index && q in index[t] ==> index[t][q] != {})
  {
    var index := AddRecord(mv, p, pair).byTopic;
    assert index[p.topic] != map[] by { assert pair in index[p.topic]; }
    assert index[p.topic][pair] != {} by { assert p in index[p.topic][pair]; }
  }

  lemma AddKeepsIndex(mv: Moves, p: Partition, pair: Pair)
    requires Indexed(mv) && p !in mv.records
    ensures Indexed(AddRecord(mv, p, pair))
  {
    var now := AddRecord(mv, p, pair);
    AddNoEmpty(mv, p, pair);
    assert now.records == mv.records[p := pair];
    hide AddRecord, Under;
    forall u, q, x ensures x in Under(now.byTopic, u, q) <==> x in now.records && now.records[x] == q && x.topic == u {
      AddUnder(mv, p, pair, u, q);
    }
  }

  /** Movement index agreement: after any move the two structures still say the same. */
  lemma MoveKeepsIndex(mv: Moves, p: Partition, from: Member, to: Member)
    requires Indexed(mv)
    ensures Indexed(MoveRecord(mv, p, from, to))
  {
    if p in mv.records {
      RemoveKeepsIndex(mv, p);
      var was := mv.records[p];
      if was.src != to { AddKeepsIndex(RemoveRecord(mv, p), p, Pair(was.src, to)); }
    } else {
      AddKeepsIndex(mv, p, Pair(from, to));
    }
  }

  // ----------------------------------------------------------------------- movement safety

  /** Within a topic no two records go opposite ways. */
  ghost predicate OneWay(records: map<Partition, Pair>) {
    forall p, q :: p in records && q in records && p.topic == q.topic ==> records[p] != Pair(records[q].dst, records[q].src)
  }

  /** Each record's destination owns the partition and differs from its source, and within a topic
      no two records go opposite ways. */
  ghost predicate Safe(mv: Moves, owner: map<Partition, Member>) {
    && (forall p :: p in mv.records ==> p in owner && owner[p] == mv.records[p].dst && mv.records[p].src != mv.records[p].dst)
    && OneWay(mv.records)
  }

  lemma PutOneWay(records: map<Partition, Pair>, p: Partition, pair: Pair)
    requires OneWay(records) && pair.src != pair.dst
    requires forall x :: x in records && x.topic == p.topic ==> records[x] != Pair(pair.dst, pair.src)
    ensures OneWay(records[p := pair])
  {
  }

  /** The way back for a move of p to `to`: towards where p came from, or is. */
  function ReversePair(mv: Moves, p: Partition, from: Member, to: Member): Pair {
    Pair(to, if p in mv.records then mv.records[p].src else from)
  }

  /** The partition that is actually moved when p should move to `to`: one whose move is thereby taken
      back if there is any, else p itself. Which one of several is not determined. */
  ghost predicate MayMove(mv: Moves, p: Partition, from: Member, to: Member, q: Partition) {
    var back := Under(mv.byTopic, p.topic, ReversePair(mv, p, from, to));
    if back == {} then q == p else q in back
  }

  lemma UnderIsRecorded(mv: Moves, t: Topic, pair: Pair)
    requires Indexed(mv)
    ensures forall x :: x in mv.records && x.topic == t && mv.records[x] == pair <==> x in Under(mv.byTopic, t, pair)
  {
  }

  lemma MovedRecords(mv: Moves, q: Partition, from: Member, to: Member)
    requires Indexed(mv)
    ensures MoveRecord(mv, q, from, to).records ==
              if q !in mv.records then mv.records[q := Pair(from, to)]
              else if mv.records[q].src == to then mv.records - {q}
              else mv.records[q := Pair(mv.records[q].src, to)]
  {
  }

  /** Moving the partition so chosen to a member other than p's owner keeps the records safe. */
  lemma MoveKeepsSafe(mv: Moves, owner: map<Partition, Member>, p: Partition, to: Member, q: Partition)
    requires Indexed(mv) && Safe(mv, owner) && p in owner && owner[p] != to && MayMove(mv, p, owner[p], to, q)
    ensures q in owner && q.topic == p.topic && owner[q] != to
    ensures q != p ==> q in mv.records && mv.records[q].src == to
    ensures q != p && p !in mv.records ==> owner[q] == owner[p]
    ensures Safe(MoveRecord(mv, q, owner[q], to), owner[q := to])
  {
    var back := ReversePair(mv, p, owner[p], to);
    UnderIsRecorded(mv, p.topic, back);
    MovedRecords(mv, q, owner[q], to);
    hide Indexed, MoveRecord, Under;
    if q !in mv.records { PutOneWay(mv.records, q, Pair(owner[q], to)); }
    else if mv.records[q].src != to { PutOneWay(mv.records, q, Pair(mv.records[q].src, to)); }
    assert OneWay(MoveRecord(mv, q, owner[q], to).records);
    hide OneWay;
  }

  // ---------------------------------------------------------------------- as it is stored

  class PartitionMovements {
    var records: map<Partition, Pair>
    var byTopic: Index

    constructor ()
      ensures Abs() == NO_MOVES && Valid()
    {
      records, byTopic := map[], map[];
    }

    ghost function Abs(): Moves
      reads this
    {
      Moves(records, byTopic)
    }

    ghost predicate Valid()
      reads this
    {
      Indexed(Abs())
    }

    method RemoveMovementRecordOfPartition(p: Partition) returns (pair: Pair)
      requires Valid() && p in records
      modifies this
      ensures Valid() && pair == old(records)[p]
      ensures p in Under(old(byTopic), p.topic, pair) && Abs() == RemoveRecord(old(Abs()), p)
    {
      RemoveKeepsIndex(Abs(), p);
      pair := records[p];
      records := records - {p};
      var inner := byTopic[p.topic];
      inner := inner[pair := inner[pair] - {p}];
      if inner[pair] == {} { inner := inner - {pair}; }
      assert inner == var left := byTopic[p.topic][pair] - {p};
                      if left == {} then byTopic[p.topic] - {pair} else byTopic[p.topic][pair := left];
      byTopic := byTopic[p.topic := inner];
      if byTopic[p.topic] == map[] { byTopic := byTopic - {p.topic}; }
      assert byTopic == Unindexed(old(byTopic), p, pair);
    }

    method AddPartitionMovementRecord(p: Partition, pair: Pair)
      requires Valid() && p !in records
      modifies this
      ensures Valid() && Abs() == AddRecord(old(Abs()), p, pair)
    {
      AddKeepsIndex(Abs(), p, pair);
      hide Indexed;
      records := records[p := pair];
      if p.topic !in byTopic { byTopic := byTopic[p.topic := map[]]; }
      var inner := byTopic[p.topic];
      if pair !in inner { inner := inner[pair := {}]; }
      inner := inner[pair := inner[pair] + {p}];
      assert inner == AddRecord(old(Abs()), p, pair).byTopic[p.topic];
      byTopic := byTopic[p.topic := inner];
      assert byTopic == AddRecord(old(Abs()), p, pair).byTopic;
    }

    method MovePartition(p: Partition, from: Member, to: Member)
      requires Valid()
      modifies this
      ensures Valid() && Abs() == MoveRecord(old(Abs()), p, from, to)
    {
      hide Indexed;
      if p in records {
        var was := RemoveMovementRecordOfPartition(p);
        if was.src != to { AddPartitionMovementRecord(p, Pair(was.src, to)); }
      } else {
        AddPartitionMovementRecord(p, Pair(from, to));
      }
    }

    method GetTheActualPartitionToBeMoved(p: Partition, from: Member, to: Member) returns (q: Partition)
      requires Valid()
      ensures MayMove(Abs(), p, from, to, q)
    {
      if p.topic !in byTopic { return p; }
      var origin := if p in records then records[p].src else from;
      var inner := byTopic[p.topic];
      var reverse := Pair(to, origin);
      if reverse !in inner { return p; }
      q :| q in inner[reverse];
    }
  }
}
