/** The reassignment loop as a relation between what it finds and what it leaves: one partition's
    turn, a pass over the partitions, and a run of passes. Where the source iterates over a map the
    relation allows every choice. */
module StickyTurns {
  import opened StickyMovements
  import opened StickyScore
  import opened StickyModel
  import opened StickyWork

  // ------------------------------------------------------------------- orders and balance tests

  /** The order of members: by load, then by ID. */
  predicate Earlier(a: Assignment, m: Member, n: Member) {
    |At(a, m)| < |At(a, n)| || (|At(a, m)| == |At(a, n)| && m.rank < n.rank)
  }

  /** The first in that order among the members that may have p. */
  ghost predicate FirstInLine(g: Group, a: Assignment, p: Partition, m: Member) {
    && p in g.consumersOf && m in a && m in g.consumersOf[p]
    && forall n :: n in a && n in g.consumersOf[p] && n != m ==> Earlier(a, m, n)
  }

  /** No member holds two more than another. */
  ghost predicate Level(a: Assignment) {
    forall m, n :: m in a && n in a ==> |a[n]| <= |a[m]| + 1
  }

  /** Member m has all it could have, or could not take a partition from a more loaded member. */
  ghost predicate Content(g: Group, a: Assignment, m: Member)
    requires m in a
  {
    |a[m]| == |At(g.partitionsOf, m)|
    || forall p, o :: p in At(g.partitionsOf, m) && p !in a[m] && o in a && p in a[o] ==> |a[o]| <= |a[m]|
  }

  ghost predicate NothingToGain(g: Group, a: Assignment) {
    forall m :: m in a ==> Content(g, a, m)
  }

  ghost predicate Balanced(g: Group, a: Assignment) {
    Level(a) || NothingToGain(g, a)
  }

  /** While a member could take a partition from one with two more, there is no balance. */
  lemma CouldTake(g: Group, a: Assignment, m: Member, p: Partition, n: Member)
    requires m in a && n in a && p in At(g.partitionsOf, m) && p !in a[m] && p in a[n]
    requires |a[m]| != |At(g.partitionsOf, m)| && |a[n]| >= |a[m]| + 2
    ensures !Balanced(g, a)
  {
    assert !Content(g, a, m);
  }

  /** No potential owner of p has two fewer partitions than its owner. */
  ghost predicate Settled(g: Group, a: Assignment, owner: Owners, p: Partition) {
    p in owner && p in g.consumersOf && forall m :: m in g.consumersOf[p] ==> |At(a, owner[p])| <= |At(a, m)| + 1
  }

  // -------------------------------------------------------------------------------- one turn

  /** What the loop works on. */
  datatype Sheet = Sheet(a: Assignment, owner: Owners, mv: Moves)

  /** One move that was made, with the loads of its source and target just before it. */
  datatype Step = Step(partition: Partition, from: Member, to: Member, fromLoad: nat, toLoad: nat)

  ghost predicate AtWork(g: Group, list: seq<Partition>, s: Sheet) {
    Work(g, list, s.a, s.owner, s.mv)
  }

  /** The guard of the previous-owner branch. */
  predicate GoesBack(g: Group, s: Sheet, p: Partition) {
    p in g.prev && p in s.owner && |At(s.a, s.owner[p])| > |At(s.a, g.prev[p])| + 1
  }

  /** The turn of p moves nothing: a balance has been reached, or no test asks for a move. */
  ghost predicate Rests(g: Group, s: Sheet, p: Partition) {
    Balanced(g, s.a) || (!GoesBack(g, s, p) && Settled(g, s.a, s.owner, p))
  }

  /** The turn of p should take it to `to`: its previous owner, or the first member in line. */
  ghost predicate Aims(g: Group, s: Sheet, p: Partition, to: Member) {
    && p in s.owner && !Rests(g, s, p)
    && if GoesBack(g, s, p) then to == g.prev[p] else FirstInLine(g, s.a, p, to)
  }

  /** The turn of p takes partition q, p itself or one that thereby goes back, to `to`. */
  ghost predicate Moving(g: Group, s: Sheet, p: Partition, to: Member, q: Partition) {
    Aims(g, s, p, to) && Indexed(s.mv) && MayMove(s.mv, p, s.owner[p], to, q) && q in s.owner
  }

  ghost function Carry(s: Sheet, q: Partition, to: Member): Sheet
    requires q in s.owner && Indexed(s.mv)
  {
    Sheet(Shift(s.a, q, s.owner[q], to), s.owner[q := to], MoveRecord(s.mv, q, s.owner[q], to))
  }

  function StepOf(s: Sheet, q: Partition, to: Member): Step
    requires q in s.owner
  {
    Step(q, s.owner[q], to, |At(s.a, s.owner[q])|, |At(s.a, to)|)
  }

  ghost predicate Turn(g: Group, s: Sheet, p: Partition, s': Sheet, steps: seq<Step>) {
    if Rests(g, s, p) then s' == s && steps == []
    else exists to, q :: Moving(g, s, p, to, q) && s' == Carry(s, q, to) && steps == [StepOf(s, q, to)]
  }

  // ------------------------------------------------------------------------ passes and runs

  function Front(list: seq<Partition>): seq<Partition>
    requires list != []
  {
    list[..|list| - 1]
  }

  function Back(list: seq<Partition>): Partition
    requires list != []
  {
    list[|list| - 1]
  }

  /** A pass over `list`. From where a balance is reached on, turns move nothing. */
  ghost predicate PassOf(g: Group, s: Sheet, list: seq<Partition>, s': Sheet, steps: seq<Step>)
    decreases |list|
  {
    if list == [] then s' == s && steps == []
    else exists mid, first, last :: PassOf(g, s, Front(list), mid, first) && Turn(g, mid, Back(list), s', last) && steps == first + last
  }

  /** n passes, each of which makes a move: the loop goes on after every one of them. */
  ghost predicate Runs(g: Group, list: seq<Partition>, s: Sheet, n: nat, s': Sheet, steps: seq<Step>)
    decreases n
  {
    if n == 0 then s' == s && steps == []
    else exists mid, first, last :: Runs(g, list, s, n - 1, mid, first)
                                    && PassOf(g, mid, list, s', last) && last != [] && steps == first + last
  }

  // ------------------------------------------------------------------------------ the score

  /** Every one of these moves went from a member with at least two more partitions. */
  ghost predicate Strict(steps: seq<Step>) {
    forall i :: 0 <= i < |steps| ==> steps[i].fromLoad >= steps[i].toLoad + 2
  }

  ghost function ScoreOf(a: Assignment): nat {
    Score(a.Keys, LoadsOf(a))
  }

  /** What the moves `steps` did to the score of an assignment they took from a to b. */
  ghost predicate Descends(g: Group, a: Assignment, steps: seq<Step>, b: Assignment) {
    PrevSubscribed(g) ==> a.Keys == b.Keys && (Strict(steps) ==> ScoreOf(b) + 2 * |steps| <= ScoreOf(a))
  }

  lemma DescendsOn(g: Group, a: Assignment, steps: seq<Step>, b: Assignment, more: seq<Step>, c: Assignment)
    requires Descends(g, a, steps, b) && Descends(g, b, more, c)
    ensures Descends(g, a, steps + more, c)
  {
    hide ScoreOf, PrevSubscribed;
    if Strict(steps + more) {
      assert forall i :: 0 <= i < |steps| ==> steps[i] == (steps + more)[i];
      assert forall i :: 0 <= i < |more| ==> more[i] == (steps + more)[|steps| + i];
    }
  }

  lemma PlacesKeptOn(list: seq<Partition>, s: Sheet, t: Sheet, u: Sheet)
    requires KeepsPlaces(list, s.a, s.owner, t.a, t.owner) && KeepsPlaces(list, t.a, t.owner, u.a, u.owner)
    ensures KeepsPlaces(list, s.a, s.owner, u.a, u.owner)
  {
    hide Placed;
  }

  // ---------------------------------------------------------------------- what a turn keeps

  /** The target has at least two fewer partitions than the owner of p. */
  lemma AimIsLower(g: Group, s: Sheet, p: Partition, to: Member)
    requires Ready(g, s.a, s.owner, p) && Aims(g, s, p, to)
    ensures |At(s.a, s.owner[p])| > |At(s.a, to)| + 1 && s.owner[p] != to
    ensures !GoesBack(g, s, p) || PrevSubscribed(g) ==> to in g.consumersOf[p]
  {
    hide Balanced;
    if !GoesBack(g, s, p) {
      var m :| m in g.consumersOf[p] && |At(s.a, s.owner[p])| > |At(s.a, m)| + 1;
      assert m == to || Earlier(s.a, to, m);
    }
  }

  lemma MovingKeeps(g: Group, list: seq<Partition>, s: Sheet, p: Partition, to: Member, q: Partition)
    requires WellFormed(g) && AtWork(g, list, s) && p in list && Moving(g, s, p, to, q)
    ensures q in list && s.owner[q] != to && Placed(s.a, s.owner, q) && q.topic == p.topic
    ensures q == p || p !in s.mv.records ==> s.owner[q] == s.owner[p]
    ensures AtWork(g, list, Carry(s, q, to)) && Carry(s, q, to).a.Keys == s.a.Keys + {to}
    ensures KeepsPlaces(list, s.a, s.owner, Carry(s, q, to).a, Carry(s, q, to).owner)
  {
    assert Ready(g, s.a, s.owner, p);
    AimIsLower(g, s, p, to);
    hide Aims, Ready, PrevSubscribed;
    MoveKeepsSafe(s.mv, s.owner, p, to, q);
    StepKeepsWork(g, list, s.a, s.owner, s.mv, p, to, q);
    hide Work, KeepsPlaces, MayMove, Shift, MoveRecord;
  }

  /** A move goes downhill unless p had moved before and another partition goes back instead. */
  lemma DirectIsDownhill(g: Group, list: seq<Partition>, s: Sheet, p: Partition, to: Member, q: Partition)
    requires WellFormed(g) && AtWork(g, list, s) && p in list && Moving(g, s, p, to, q) && (q == p || p !in s.mv.records)
    ensures Strict([StepOf(s, q, to)])
  {
    assert Ready(g, s.a, s.owner, p);
    AimIsLower(g, s, p, to);
    MovingKeeps(g, list, s, p, to, q);
  }

  /** What a turn does to the score, known before the move: it falls if and only if the owner of the
      partition actually moved holds at least two more than the target. */
  lemma TurnLowersScoreIff(g: Group, list: seq<Partition>, s: Sheet, p: Partition, to: Member, q: Partition)
    requires WellFormed(g) && AtWork(g, list, s) && p in list && Moving(g, s, p, to, q) && to in s.a
    ensures s.owner[q] in s.a
    ensures ScoreOf(Carry(s, q, to).a) < ScoreOf(s.a) <==> |s.a[s.owner[q]]| >= |s.a[to]| + 2
    ensures |s.a[s.owner[q]]| >= |s.a[to]| + 2 ==> ScoreOf(Carry(s, q, to).a) + 2 <= ScoreOf(s.a)
  {
    hide AtWork, Moving, Carry, KeepsPlaces, ScoreOf;
    MovingKeeps(g, list, s, p, to, q);
    SoundAtWork(g, list, s);
    CarryScore(g, s, q, to);
  }

  lemma SoundAtWork(g: Group, list: seq<Partition>, s: Sheet)
    requires AtWork(g, list, s)
    ensures Sound(g, s.a, s.owner) && Indexed(s.mv)
  {
    hide Sound, Indexed;
  }

  lemma CarryScore(g: Group, s: Sheet, q: Partition, to: Member)
    requires Sound(g, s.a, s.owner) && Indexed(s.mv) && Placed(s.a, s.owner, q) && s.owner[q] != to && to in s.a
    ensures Carry(s, q, to).a.Keys == s.a.Keys
    ensures ScoreOf(Carry(s, q, to).a) < ScoreOf(s.a) <==> |s.a[s.owner[q]]| >= |s.a[to]| + 2
    ensures |s.a[s.owner[q]]| >= |s.a[to]| + 2 ==> ScoreOf(Carry(s, q, to).a) + 2 <= ScoreOf(s.a)
  {
    hide Shift, Score, Moved, MoveRecord, Sound, Indexed;
    ShiftKeepsSound(g, s.a, s.owner, q, to);
    ShiftMovesLoad(g, s.a, s.owner, q, to);
    assert LoadsOf(s.a).Keys == s.a.Keys;
    MoveChangesScore(s.a.Keys, LoadsOf(s.a), s.owner[q], to);
  }

  lemma MovingDescends(g: Group, list: seq<Partition>, s: Sheet, p: Partition, to: Member, q: Partition)
    requires WellFormed(g) && AtWork(g, list, s) && p in list && Moving(g, s, p, to, q)
    ensures Descends(g, s.a, [StepOf(s, q, to)], Carry(s, q, to).a)
  {
    hide AtWork, Carry, KeepsPlaces, ScoreOf, PrevSubscribed, Ready, Rests, MayMove, Indexed;
    if PrevSubscribed(g) {
      ReadyAtWork(g, list, s, p);
      AimIsLower(g, s, p, to);
      assert to in s.a by { InPlay(g, s, p, to); }
      MovingKeeps(g, list, s, p, to, q);
      TurnLowersScoreIff(g, list, s, p, to, q);
      var step := StepOf(s, q, to);
      assert [step][0] == step;
    }
  }

  lemma ReadyAtWork(g: Group, list: seq<Partition>, s: Sheet, p: Partition)
    requires AtWork(g, list, s) && p in list
    ensures Ready(g, s.a, s.owner, p)
  {
    hide Sound, Indexed, Safe, Ready;
  }

  lemma InPlay(g: Group, s: Sheet, p: Partition, m: Member)
    requires Ready(g, s.a, s.owner, p) && m in g.consumersOf[p]
    ensures m in s.a
  {
  }

  /** A turn keeps movement safety, index agreement, inverse maps and readiness, loses nothing, and
      does to the score what its move does; without a move nothing changes. */
  lemma TurnKeeps(g: Group, list: seq<Partition>, s: Sheet, p: Partition, s': Sheet, steps: seq<Step>)
    requires WellFormed(g) && AtWork(g, list, s) && p in list && Turn(g, s, p, s', steps)
    ensures AtWork(g, list, s') && KeepsPlaces(list, s.a, s.owner, s'.a, s'.owner) && Descends(g, s.a, steps, s'.a)
    ensures |steps| <= 1 && (steps == [] ==> s' == s && Rests(g, s, p))
  {
    hide WellFormed, AtWork, KeepsPlaces, Descends, Rests, Aims, MayMove, Carry, Indexed;
    if Rests(g, s, p) {
      Nothing(g, list, s);
    } else {
      var to, q :| Moving(g, s, p, to, q) && s' == Carry(s, q, to) && steps == [StepOf(s, q, to)];
      MovingKeeps(g, list, s, p, to, q);
      MovingDescends(g, list, s, p, to, q);
    }
  }

  lemma Nothing(g: Group, list: seq<Partition>, s: Sheet)
    ensures KeepsPlaces(list, s.a, s.owner, s.a, s.owner) && Descends(g, s.a, [], s.a)
  {
  }

  // --------------------------------------------------------------------- what a pass keeps

  /** The loop has nothing left to do. */
  ghost predicate Finished(g: Group, list: seq<Partition>, s: Sheet) {
    Balanced(g, s.a) || forall p :: p in list ==> Settled(g, s.a, s.owner, p) && !GoesBack(g, s, p)
  }

  lemma {:induction false} PassKeeps(g: Group, list: seq<Partition>, s: Sheet, turns: seq<Partition>, s': Sheet, steps: seq<Step>)
    requires WellFormed(g) && AtWork(g, list, s) && PassOf(g, s, turns, s', steps) && forall p :: p in turns ==> p in list
    ensures AtWork(g, list, s') && KeepsPlaces(list, s.a, s.owner, s'.a, s'.owner) && Descends(g, s.a, steps, s'.a)
    ensures steps == [] ==> s' == s && Finished(g, turns, s)
    decreases |turns|
  {
    hide WellFormed, AtWork, KeepsPlaces, Descends, Rests, Turn, Finished;
    if turns == [] {
      Nothing(g, list, s);
      FinishedNone(g, s);
    } else {
      var mid, first, last :| PassOf(g, s, Front(turns), mid, first) && Turn(g, mid, Back(turns), s', last) && steps == first + last;
      PassKeeps(g, list, s, Front(turns), mid, first);
      TurnKeeps(g, list, mid, Back(turns), s', last);
      PlacesKeptOn(list, s, mid, s');
      DescendsOn(g, s.a, first, mid.a, last, s'.a);
      if steps == [] { FinishedMore(g, turns, s); }
    }
  }

  lemma FinishedNone(g: Group, s: Sheet)
    ensures Finished(g, [], s)
  {
  }

  lemma FinishedMore(g: Group, turns: seq<Partition>, s: Sheet)
    requires turns != [] && Finished(g, Front(turns), s) && Rests(g, s, Back(turns))
    ensures Finished(g, turns, s)
  {
    hide Balanced, Settled, GoesBack;
    assert turns == Front(turns) + [Back(turns)];
  }

  /** Everything holds throughout every run of passes, and a run of n passes makes at least n moves. */
  lemma {:induction false} RunKeeps(g: Group, list: seq<Partition>, s: Sheet, n: nat, s': Sheet, steps: seq<Step>)
    requires WellFormed(g) && AtWork(g, list, s) && Runs(g, list, s, n, s', steps)
    ensures AtWork(g, list, s') && KeepsPlaces(list, s.a, s.owner, s'.a, s'.owner) && Descends(g, s.a, steps, s'.a) && |steps| >= n
    decreases n
  {
    hide WellFormed, AtWork, KeepsPlaces, Descends, PassOf;
    if n == 0 {
      Nothing(g, list, s);
    } else {
      var mid, first, last :| Runs(g, list, s, n - 1, mid, first) && PassOf(g, mid, list, s', last) && last != [] && steps == first + last;
      RunKeeps(g, list, s, n - 1, mid, first);
      PassKeeps(g, list, mid, list, s', last);
      PlacesKeptOn(list, s, mid, s');
      DescendsOn(g, s.a, first, mid.a, last, s'.a);
    }
  }

  /** A run of downhill moves is shorter than half the score it began with. */
  lemma DownhillEnds(g: Group, list: seq<Partition>, s: Sheet, n: nat, s': Sheet, steps: seq<Step>)
    requires WellFormed(g) && AtWork(g, list, s) && Runs(g, list, s, n, s', steps) && PrevSubscribed(g) && Strict(steps)
    ensures 2 * n <= ScoreOf(s.a) && (steps != [] ==> ScoreOf(s'.a) < ScoreOf(s.a))
  {
    hide WellFormed, AtWork, ScoreOf, Runs;
    RunKeeps(g, list, s, n, s', steps);
  }
}
