/** Conditions on the group under which the reassignment loop ends: every member may have every
    partition that is reassigned, and none of these has a previous owner; or no two of them are of one
    topic, and previous owners are subscribed. */
module StickyUniform {
  import opened StickyMovements
  import opened StickyModel
  import opened StickyWork
  import opened StickyTurns

  ghost predicate Uniform(g: Group) {
    forall p :: p in g.consumersOf && |g.consumersOf[p]| >= 2 ==> p !in g.prev && forall m :: m in g.partitionsOf ==> m in g.consumersOf[p]
  }

  /** Members that have received a partition are among the least loaded. */
  ghost predicate LowReceivers(s: Sheet) {
    forall p, m :: p in s.mv.records && m in s.a ==> |At(s.a, s.mv.records[p].dst)| <= |s.a[m]| + 1
  }

  lemma UniformPrev(g: Group)
    requires Uniform(g)
    ensures PrevSubscribed(g)
  {
  }

  /** Everybody is in line, so the target is loaded least of all. */
  lemma TargetIsLeast(g: Group, s: Sheet, p: Partition, to: Member)
    requires Uniform(g) && Ready(g, s.a, s.owner, p) && s.a.Keys <= g.partitionsOf.Keys && Aims(g, s, p, to)
    ensures to in s.a && forall m :: m in s.a ==> |s.a[to]| <= |s.a[m]|
  {
    hide Rests;
    assert p !in g.prev;
    forall m | m in s.a ensures |s.a[to]| <= |s.a[m]| {
      assert m == to || Earlier(s.a, to, m);
    }
  }

  /** A member that received never gives: the partition moved is p itself, for the first time. */
  lemma MovesItself(g: Group, list: seq<Partition>, s: Sheet, p: Partition, to: Member, q: Partition)
    requires Uniform(g) && WellFormed(g) && AtWork(g, list, s) && p in list && s.a.Keys <= g.partitionsOf.Keys && LowReceivers(s)
    requires Moving(g, s, p, to, q)
    ensures q == p && p !in s.mv.records
  {
    ReadyAtWork(g, list, s, p);
    TargetIsLeast(g, s, p, to);
    AimIsLower(g, s, p, to);
    SoundAtWork(g, list, s);
    assert Safe(s.mv, s.owner);
    UnderIsRecorded(s.mv, p.topic, ReversePair(s.mv, p, s.owner[p], to));
    hide Work, Aims, Uniform, Indexed, OneWay, Ready, WellFormed;
    forall x | x in s.mv.records ensures s.mv.records[x].dst != s.owner[p] {
      assert |At(s.a, s.mv.records[x].dst)| <= |s.a[to]| + 1;
    }
    assert p !in s.mv.records;
  }

  lemma LoadsAfter(g: Group, s: Sheet, q: Partition, to: Member, m: Member)
    requires Sound(g, s.a, s.owner) && Indexed(s.mv) && Placed(s.a, s.owner, q) && s.owner[q] != to && to in s.a && m in s.a
    ensures var b := Carry(s, q, to).a;
            b.Keys == s.a.Keys && |b[m]| == |s.a[m]| + (if m == to then 1 else if m == s.owner[q] then -1 else 0)
  {
    hide MoveRecord;
    ShiftLists(s.a, q, s.owner[q], to, s.owner, g);
    hide Shift;
  }

  /** How loads and records change when p goes from `from` to `to` for the first time. */
  ghost predicate Passes(s: Sheet, t: Sheet, p: Partition, from: Member, to: Member) {
    && t.a.Keys == s.a.Keys && t.mv.records == s.mv.records[p := Pair(from, to)]
    && forall m :: m in s.a ==> |t.a[m]| == |s.a[m]| + (if m == to then 1 else if m == from then -1 else 0)
  }

  lemma CarryPasses(g: Group, list: seq<Partition>, s: Sheet, p: Partition, to: Member)
    requires AtWork(g, list, s) && p in list && p in s.owner && s.owner[p] != to && to in s.a && p !in s.mv.records
    ensures Indexed(s.mv) && Passes(s, Carry(s, p, to), p, s.owner[p], to)
  {
    ReadyAtWork(g, list, s, p);
    SoundAtWork(g, list, s);
    MovedRecords(s.mv, p, s.owner[p], to);
    assert Carry(s, p, to).mv.records == s.mv.records[p := Pair(s.owner[p], to)];
    hide AtWork, Carry, Sound, Indexed;
    LoadsAfter(g, s, p, to, to);
    forall m | m in s.a
      ensures |Carry(s, p, to).a[m]| == |s.a[m]| + (if m == to then 1 else if m == s.owner[p] then -1 else 0)
    {
      LoadsAfter(g, s, p, to, m);
    }
  }

  lemma LowAfter(s: Sheet, t: Sheet, p: Partition, from: Member, to: Member)
    requires LowReceivers(s) && Passes(s, t, p, from, to) && from in s.a && to in s.a && from != to
    requires (forall m :: m in s.a ==> |s.a[to]| <= |s.a[m]|) && |s.a[from]| > |s.a[to]| + 1
    requires forall x :: x in s.mv.records ==> s.mv.records[x].dst in s.a
    ensures LowReceivers(t)
  {
    forall x, m | x in t.mv.records && m in t.a ensures |At(t.a, t.mv.records[x].dst)| <= |t.a[m]| + 1 {
      if x != p {
        var d := s.mv.records[x].dst;
        assert |At(s.a, d)| <= |s.a[m]| + 1 && |At(s.a, d)| <= |s.a[to]| + 1;
      }
    }
  }

  lemma RecordedInPlay(g: Group, list: seq<Partition>, s: Sheet)
    requires AtWork(g, list, s)
    ensures forall x :: x in s.mv.records ==> s.mv.records[x].dst in s.a
  {
    forall x | x in s.mv.records ensures s.mv.records[x].dst in s.a {
      assert Ready(g, s.a, s.owner, x);
    }
  }

  lemma StaysLow(g: Group, list: seq<Partition>, s: Sheet, p: Partition, to: Member)
    requires Uniform(g) && WellFormed(g) && AtWork(g, list, s) && p in list && s.a.Keys <= g.partitionsOf.Keys && LowReceivers(s)
    requires Moving(g, s, p, to, p) && p !in s.mv.records
    ensures LowReceivers(Carry(s, p, to)) && Carry(s, p, to).a.Keys == s.a.Keys && Strict([StepOf(s, p, to)])
  {
    hide Uniform, WellFormed, AtWork, LowReceivers, Carry, Rests, MayMove, Indexed;
    ReadyAtWork(g, list, s, p);
    TargetIsLeast(g, s, p, to);
    AimIsLower(g, s, p, to);
    CarryPasses(g, list, s, p, to);
    RecordedInPlay(g, list, s);
    LowAfter(s, Carry(s, p, to), p, s.owner[p], to);
  }

  lemma UniformTurn(g: Group, list: seq<Partition>, s: Sheet, p: Partition, s': Sheet, steps: seq<Step>)
    requires Uniform(g) && WellFormed(g) && AtWork(g, list, s) && p in list && s.a.Keys <= g.partitionsOf.Keys && LowReceivers(s)
    requires Turn(g, s, p, s', steps)
    ensures LowReceivers(s') && s'.a.Keys == s.a.Keys && Strict(steps)
  {
    hide Uniform, WellFormed, AtWork, LowReceivers, Rests, Aims, MayMove, Carry, Indexed;
    if !Rests(g, s, p) {
      var to, q :| Moving(g, s, p, to, q) && s' == Carry(s, q, to) && steps == [StepOf(s, q, to)];
      MovesItself(g, list, s, p, to, q);
      StaysLow(g, list, s, p, to);
    }
  }

  lemma StrictConcat(a: seq<Step>, b: seq<Step>)
    requires Strict(a) && Strict(b)
    ensures Strict(a + b)
  {
  }

  lemma {:induction false} UniformPass(g: Group, list: seq<Partition>, s: Sheet, turns: seq<Partition>, s': Sheet, steps: seq<Step>)
    requires Uniform(g) && WellFormed(g) && AtWork(g, list, s) && s.a.Keys <= g.partitionsOf.Keys && LowReceivers(s)
    requires PassOf(g, s, turns, s', steps) && forall p :: p in turns ==> p in list
    ensures LowReceivers(s') && s'.a.Keys == s.a.Keys && Strict(steps)
    decreases |turns|
  {
    hide Uniform, WellFormed, AtWork, LowReceivers, Turn, Strict;
    if turns == [] {
      assert Strict([]) by { NoSteps(); }
    } else {
      var mid, first, last :| PassOf(g, s, Front(turns), mid, first) && Turn(g, mid, Back(turns), s', last) && steps == first + last;
      UniformPass(g, list, s, Front(turns), mid, first);
      PassKeeps(g, list, s, Front(turns), mid, first);
      UniformTurn(g, list, mid, Back(turns), s', last);
      StrictConcat(first, last);
    }
  }

  lemma NoSteps()
    ensures Strict([])
  {
  }

  lemma {:induction false} UniformRun(g: Group, list: seq<Partition>, s: Sheet, n: nat, s': Sheet, steps: seq<Step>)
    requires Uniform(g) && WellFormed(g) && AtWork(g, list, s) && s.a.Keys <= g.partitionsOf.Keys && LowReceivers(s)
    requires Runs(g, list, s, n, s', steps)
    ensures LowReceivers(s') && s'.a.Keys == s.a.Keys && Strict(steps)
    decreases n
  {
    hide Uniform, WellFormed, AtWork, LowReceivers, PassOf, Strict;
    if n == 0 {
      NoSteps();
    } else {
      var mid, first, last :| Runs(g, list, s, n - 1, mid, first) && PassOf(g, mid, list, s', last) && last != [] && steps == first + last;
      UniformRun(g, list, s, n - 1, mid, first);
      RunKeeps(g, list, s, n - 1, mid, first);
      UniformPass(g, list, mid, list, s', last);
      StrictConcat(first, last);
    }
  }

  /** The loop ends: from a start without movements it makes at most half the score many passes with a
      move, all downhill, so the result has a lower score unless nothing was moved. */
  lemma UniformEnds(g: Group, list: seq<Partition>, s: Sheet, n: nat, s': Sheet, steps: seq<Step>)
    requires Uniform(g) && WellFormed(g) && AtWork(g, list, s) && s.a.Keys <= g.partitionsOf.Keys && s.mv == NO_MOVES
    requires Runs(g, list, s, n, s', steps)
    ensures 2 * n <= ScoreOf(s.a) && Strict(steps) && (steps != [] ==> ScoreOf(s'.a) < ScoreOf(s.a))
  {
    hide WellFormed, AtWork, ScoreOf, Runs;
    UniformPrev(g);
    UniformRun(g, list, s, n, s', steps);
    DownhillEnds(g, list, s, n, s', steps);
  }

  // -------------------------------------------------------------- one partition of each topic

  /** Of no topic do several members share two partitions. */
  ghost predicate Sparse(g: Group) {
    && PrevSubscribed(g)
    && forall p, q :: p in g.consumersOf && q in g.consumersOf && |g.consumersOf[p]| >= 2 && |g.consumersOf[q]| >= 2 && p.topic == q.topic ==> p == q
  }

  lemma SparseTurn(g: Group, list: seq<Partition>, s: Sheet, p: Partition, s': Sheet, steps: seq<Step>)
    requires Sparse(g) && WellFormed(g) && AtWork(g, list, s) && p in list && Turn(g, s, p, s', steps)
    ensures Strict(steps)
  {
    hide WellFormed, AtWork, Rests, Aims, MayMove, Carry, Indexed, Strict;
    if Rests(g, s, p) {
      NoSteps();
    } else {
      var to, q :| Moving(g, s, p, to, q) && s' == Carry(s, q, to) && steps == [StepOf(s, q, to)];
      MovingKeeps(g, list, s, p, to, q);
      ReadyAtWork(g, list, s, p);
      ReadyAtWork(g, list, s, q);
      DirectIsDownhill(g, list, s, p, to, q);
    }
  }

  lemma {:induction false} SparsePass(g: Group, list: seq<Partition>, s: Sheet, turns: seq<Partition>, s': Sheet, steps: seq<Step>)
    requires Sparse(g) && WellFormed(g) && AtWork(g, list, s) && PassOf(g, s, turns, s', steps) && forall p :: p in turns ==> p in list
    ensures Strict(steps)
    decreases |turns|
  {
    hide Sparse, WellFormed, AtWork, Turn, Strict;
    if turns == [] {
      NoSteps();
    } else {
      var mid, first, last :| PassOf(g, s, Front(turns), mid, first) && Turn(g, mid, Back(turns), s', last) && steps == first + last;
      SparsePass(g, list, s, Front(turns), mid, first);
      PassKeeps(g, list, s, Front(turns), mid, first);
      SparseTurn(g, list, mid, Back(turns), s', last);
      StrictConcat(first, last);
    }
  }

  lemma {:induction false} SparseRun(g: Group, list: seq<Partition>, s: Sheet, n: nat, s': Sheet, steps: seq<Step>)
    requires Sparse(g) && WellFormed(g) && AtWork(g, list, s) && Runs(g, list, s, n, s', steps)
    ensures Strict(steps)
    decreases n
  {
    hide Sparse, WellFormed, AtWork, PassOf, Strict;
    if n == 0 {
      NoSteps();
    } else {
      var mid, first, last :| Runs(g, list, s, n - 1, mid, first) && PassOf(g, mid, list, s', last) && last != [] && steps == first + last;
      SparseRun(g, list, s, n - 1, mid, first);
      RunKeeps(g, list, s, n - 1, mid, first);
      SparsePass(g, list, mid, list, s', last);
      StrictConcat(first, last);
    }
  }

  /** With nothing of the same topic to move back, every move is downhill, and the loop ends. */
  lemma SparseEnds(g: Group, list: seq<Partition>, s: Sheet, n: nat, s': Sheet, steps: seq<Step>)
    requires Sparse(g) && WellFormed(g) && AtWork(g, list, s) && Runs(g, list, s, n, s', steps)
    ensures 2 * n <= ScoreOf(s.a) && Strict(steps) && (steps != [] ==> ScoreOf(s'.a) < ScoreOf(s.a))
  {
    hide WellFormed, AtWork, ScoreOf, Runs, PrevSubscribed;
    SparseRun(g, list, s, n, s', steps);
    DownhillEnds(g, list, s, n, s', steps);
  }
}
