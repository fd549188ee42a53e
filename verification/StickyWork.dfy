/** What every step of the reassignment loop keeps. */
module StickyWork {
  import opened StickyMovements
  import opened StickyModel

  /** A partition the loop may move: several members may have it, all of them in play, and the two
      maps agree on it. */
  ghost predicate Ready(g: Group, a: Assignment, owner: Owners, p: Partition) {
    && p in g.consumersOf && |g.consumersOf[p]| >= 2
    && Placed(a, owner, p)
    && forall m :: m in g.consumersOf[p] ==> m in a
  }

  ghost predicate AllReady(g: Group, list: seq<Partition>, a: Assignment, owner: Owners) {
    forall p :: p in list ==> Ready(g, a, owner, p)
  }

  ghost predicate Work(g: Group, list: seq<Partition>, a: Assignment, owner: Owners, mv: Moves) {
    && Indexed(mv) && Safe(mv, owner)
    && Sound(g, a, owner) && AllReady(g, list, a, owner)
    && (forall q :: q in mv.records ==> q in list)
    && (PrevSubscribed(g) ==> Subscribed(g, a))
  }

  /** Nothing that was placed is lost, and only listed partitions change hands. */
  ghost predicate KeepsPlaces(list: seq<Partition>, a: Assignment, owner: Owners, a': Assignment, owner': Owners) {
    && (forall p :: Placed(a, owner, p) ==> Placed(a', owner', p))
    && (forall p :: p in owner && p !in list ==> p in owner' && owner'[p] == owner[p])
  }

  lemma ShiftKeepsReady(g: Group, list: seq<Partition>, a: Assignment, owner: Owners, q: Partition, to: Member)
    requires Sound(g, a, owner) && AllReady(g, list, a, owner) && Placed(a, owner, q) && owner[q] != to && q in list
    ensures AllReady(g, list, Shift(a, q, owner[q], to), owner[q := to])
    ensures KeepsPlaces(list, a, owner, Shift(a, q, owner[q], to), owner[q := to])
  {
    ShiftKeepsSound(g, a, owner, q, to);
    hide Shift, Sound, Placed;
  }

  /** One pass of reassignPartition: p should move to `to`, and q is the partition then moved. */
  lemma StepKeepsWork(g: Group, list: seq<Partition>, a: Assignment, owner: Owners, mv: Moves, p: Partition, to: Member, q: Partition)
    requires WellFormed(g) && Work(g, list, a, owner, mv) && p in list && p in owner && owner[p] != to
    requires MayMove(mv, p, owner[p], to, q) && (PrevSubscribed(g) ==> to in g.consumersOf[p])
    ensures q in list && q in owner && owner[q] != to && Placed(a, owner, q)
    ensures q == p || p !in mv.records ==> owner[q] == owner[p]
    ensures var b := Shift(a, q, owner[q], to);
            && Work(g, list, b, owner[q := to], MoveRecord(mv, q, owner[q], to))
            && b.Keys == a.Keys + {to} && KeepsPlaces(list, a, owner, b, owner[q := to])
  {
    MoveKeepsSafe(mv, owner, p, to, q);
    hide Safe, Indexed, MayMove;
    assert Ready(g, a, owner, q) && Ready(g, a, owner, p);
    MoveKeepsIndex(mv, q, owner[q], to);
    ShiftKeepsSound(g, a, owner, q, to);
    ShiftKeepsReady(g, list, a, owner, q, to);
    MovedRecords(mv, q, owner[q], to);
    hide Shift, Sound, Placed, AllReady, MoveRecord, KeepsPlaces, Subscribed, PrevSubscribed;
  }
}
