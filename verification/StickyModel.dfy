/** Assignments of partitions to members, the inverse map from partitions to members, and what a
    single assignment or move does to them. */
module StickyModel {
  import opened StickyMovements
  import opened StickyScore

  type Assignment = map<Member, seq<Partition>>

  type Owners = map<Partition, Member>

  /** Who may consume what, and who consumed a partition before its current consumer. */
  datatype Group = Group(consumersOf: map<Partition, seq<Member>>, partitionsOf: map<Member, seq<Partition>>, prev: Owners)

  ghost predicate Mirrored(g: Group) {
    && (forall p, m :: p in g.consumersOf && m in g.consumersOf[p] ==> m in g.partitionsOf && p in g.partitionsOf[m])
    && (forall p, m :: m in g.partitionsOf && p in g.partitionsOf[m] ==> p in g.consumersOf && m in g.consumersOf[p])
  }

  /** Subscriptions are to topics: the partitions of a topic have the same potential consumers. */
  ghost predicate ByTopic(g: Group) {
    forall p, q, m :: p in g.consumersOf && q in g.consumersOf && p.topic == q.topic && m in g.consumersOf[p] ==> m in g.consumersOf[q]
  }

  ghost predicate WellFormed(g: Group) {
    Mirrored(g) && ByTopic(g)
  }

  /** Every previous owner of a partition that several members may have is still subscribed. */
  ghost predicate PrevSubscribed(g: Group) {
    forall p :: p in g.prev && p in g.consumersOf && |g.consumersOf[p]| >= 2 ==> g.prev[p] in g.consumersOf[p]
  }

  ghost predicate NoDup<T(!new)>(s: seq<T>) {
    forall i, j :: 0 <= i < j < |s| ==> s[i] != s[j]
  }

  /** A map lookup that gives the empty list for a missing key. */
  function At(a: Assignment, m: Member): seq<Partition> {
    if m in a then a[m] else []
  }

  /** The owner map is an inverse of the assignment: a partition is listed at most once, under its
      owner, and only known partitions are listed. */
  ghost predicate Sound(g: Group, a: Assignment, owner: Owners) {
    && (forall m :: m in a ==> NoDup(a[m]))
    && (forall m, p :: m in a && p in a[m] ==> p in owner && owner[p] == m && p in g.consumersOf)
  }

  /** The assignment is an inverse of the owner map at p. */
  ghost predicate Placed(a: Assignment, owner: Owners, p: Partition) {
    p in owner && owner[p] in a && p in a[owner[p]]
  }

  ghost predicate Subscribed(g: Group, a: Assignment) {
    forall m, p :: m in a && p in a[m] ==> p in g.consumersOf && m in g.consumersOf[p]
  }

  /** Every partition that has a potential consumer is given to exactly one member, which is
      subscribed to it; the two maps are mutually inverse there. */
  ghost predicate Covers(g: Group, a: Assignment, owner: Owners) {
    && Sound(g, a, owner) && Subscribed(g, a)
    && forall p :: p in g.consumersOf && g.consumersOf[p] != [] ==> Placed(a, owner, p)
  }

  // ------------------------------------------------------------------------- list removal

  function Without(s: seq<Partition>, p: Partition): seq<Partition> {
    if s == [] then [] else if s[0] == p then s[1..] else [s[0]] + Without(s[1..], p)
  }

  lemma {:induction false} WithoutRemoves(s: seq<Partition>, p: Partition)
    requires NoDup(s)
    ensures NoDup(Without(s, p)) && forall x :: x in Without(s, p) <==> x in s && x != p
    ensures |Without(s, p)| == |s| - if p in s then 1 else 0
  {
    if s != [] && s[0] != p {
      WithoutRemoves(s[1..], p);
      assert forall j :: 0 < j < |s| ==> s[j] in s[1..] && s[j] != s[0];
      assert s[0] !in Without(s[1..], p);
    }
  }

  // ------------------------------------------------------------------------------- a move

  /** The assignment after partition q has moved from its owner to `to`. */
  function Shift(a: Assignment, q: Partition, from: Member, to: Member): Assignment {
    var less := a[from := Without(At(a, from), q)];
    less[to := At(less, to) + [q]]
  }

  lemma ShiftLists(a: Assignment, q: Partition, from: Member, to: Member, owner: Owners, g: Group)
    requires Sound(g, a, owner) && from in a && q in a[from] && from != to
    ensures var b := Shift(a, q, from, to);
            && b.Keys == a.Keys + {to}
            && (forall m, p :: m in b && p in b[m] <==> (m == to && p == q) || (p != q && m in a && p in a[m]))
            && (forall m :: m in b ==> NoDup(b[m]))
            && |b[from]| == |a[from]| - 1 && |b[to]| == |At(a, to)| + 1
            && (forall m :: m in a && m != from && m != to ==> b[m] == a[m])
  {
    WithoutRemoves(a[from], q);
    hide Without;
    assert owner[q] == from;
    assert to in a ==> q !in a[to];
  }

  lemma ShiftKeepsSound(g: Group, a: Assignment, owner: Owners, q: Partition, to: Member)
    requires Sound(g, a, owner) && Placed(a, owner, q) && owner[q] != to
    ensures var b := Shift(a, q, owner[q], to);
            && Sound(g, b, owner[q := to])
            && b.Keys == a.Keys + {to}
            && (forall p :: Placed(a, owner, p) ==> Placed(b, owner[q := to], p))
            && (Subscribed(g, a) && to in g.consumersOf[q] ==> Subscribed(g, b))
  {
    ShiftLists(a, q, owner[q], to, owner, g);
    hide Shift;
  }

  lemma ShiftMovesLoad(g: Group, a: Assignment, owner: Owners, q: Partition, to: Member)
    requires Sound(g, a, owner) && Placed(a, owner, q) && owner[q] != to && to in a
    ensures var from := owner[q];
            LoadsOf(a)[from] > 0 && LoadsOf(Shift(a, q, from, to)) == Moved(LoadsOf(a), from, to)
  {
    ShiftLists(a, q, owner[q], to, owner, g);
    hide Shift;
  }

  /** A move from a member with at least two more partitions lowers the balance score. */
  lemma ShiftLowersScore(g: Group, a: Assignment, owner: Owners, q: Partition, to: Member)
    requires Sound(g, a, owner) && Placed(a, owner, q) && owner[q] != to && to in a
    requires |a[owner[q]]| >= |a[to]| + 2
    ensures var b := Shift(a, q, owner[q], to);
            b.Keys == a.Keys && Score(b.Keys, LoadsOf(b)) + 2 <= Score(a.Keys, LoadsOf(a))
  {
    ShiftKeepsSound(g, a, owner, q, to);
    ShiftMovesLoad(g, a, owner, q, to);
    MoveChangesScore(a.Keys, LoadsOf(a), owner[q], to);
    hide Shift, Score, Moved, Sound;
  }

  // ---------------------------------------------------------------------- members not in play

  /** A member that holds all it may have, none of which anyone else may have. */
  ghost predicate Fixed(g: Group, a: Assignment, m: Member) {
    m in g.partitionsOf && |At(a, m)| >= |g.partitionsOf[m]|
    && forall p :: p in At(a, m) && p in g.consumersOf ==> |g.consumersOf[p]| < 2
  }

  lemma {:induction false} DistinctFit(s: seq<Partition>, t: seq<Partition>)
    requires NoDup(s) && forall p :: p in s ==> p in t
    ensures |s| <= |t| && (|s| == |t| ==> forall p :: p in t ==> p in s)
    decreases |t|
  {
    assert s == [] || s[0] in s;
    if t == [] {
    } else if t[0] in s {
      WithoutRemoves(s, t[0]);
      DistinctFit(Without(s, t[0]), t[1..]);
    } else {
      DistinctFit(s, t[1..]);
    }
  }

  /** A fixed member is no potential consumer of a partition that several members may have. */
  lemma FixedIsOut(g: Group, a: Assignment, owner: Owners, m: Member, p: Partition)
    requires Mirrored(g) && Sound(g, a, owner) && Subscribed(g, a) && m in a && Fixed(g, a, m)
    requires p in g.consumersOf && |g.consumersOf[p]| >= 2
    ensures m !in g.consumersOf[p]
  {
    if m in g.consumersOf[p] {
      DistinctFit(a[m], g.partitionsOf[m]);
    }
  }
}
