/** Balancing a whole assignment: unassigned partitions are given out, members that cannot take part
    are set aside, the reassignment loop runs, and the members set aside are put back. */
module StickyPlan {
  import opened StickyMovements
  import opened StickyModel
  import opened StickyWork
  import opened StickyTurns
  import opened StickyAssignors

  // -------------------------------------------------------------------------- giving out

  ghost predicate Unlisted(a: Assignment, p: Partition) {
    forall m :: m in a ==> p !in a[m]
  }

  /** Every partition with a potential consumer is placed, or is still among those to give out. */
  ghost predicate CoversBut(g: Group, a: Assignment, owner: Owners, left: seq<Partition>) {
    && Sound(g, a, owner) && Subscribed(g, a) && a.Keys == g.partitionsOf.Keys
    && NoDup(left) && (forall p :: p in left ==> p in g.consumersOf && Unlisted(a, p))
    && forall p :: p in g.consumersOf && g.consumersOf[p] != [] ==> p in left || Placed(a, owner, p)
  }

  lemma NoDupLists(left: seq<Partition>, s: seq<Partition>, p: Partition)
    requires left != [] && NoDup(left) && NoDup(s) && p == left[0] && p !in s
    ensures NoDup(left[1..]) && p !in left[1..] && NoDup(s + [p])
  {
  }

  lemma GiveCovers(g: Group, a: Assignment, owner: Owners, left: seq<Partition>, m: Member)
    requires CoversBut(g, a, owner, left) && left != [] && m in a && m in g.consumersOf[left[0]]
    ensures CoversBut(g, a[m := a[m] + [left[0]]], owner[left[0] := m], left[1..])
  {
    var p := left[0];
    var b, o := a[m := a[m] + [p]], owner[p := m];
    hide NoDup;
    assert NoDup(left[1..]) && NoDup(b[m]) by { NoDupLists(left, a[m], p); }
    assert forall q :: q in left <==> q == p || q in left[1..];
    assert forall n, q :: n in b && q in b[n] <==> (n == m && q == p) || (n in a && q in a[n]);
    assert Sound(g, b, o);
    forall q | q in left[1..] ensures Unlisted(b, q) {
      assert q != p && Unlisted(a, q);
    }
    forall q | q in g.consumersOf && g.consumersOf[q] != [] && q !in left[1..] ensures Placed(b, o, q) {
      if q != p { assert Placed(a, owner, q); }
    }
  }

  /** The first potential consumer in line, by load and then by ID, gets the partition. */
  method AssignPartition(s: StickyAssignor, g: Group, p: Partition, order: seq<Member>) returns (order': seq<Member>)
    requires WellFormed(g) && IsSorted(order, s.currentAssignment) && s.currentAssignment.Keys == g.partitionsOf.Keys
    requires p in g.consumersOf && g.consumersOf[p] != []
    modifies s`currentAssignment, s`currentPartitionConsumer
    ensures p in s.currentPartitionConsumer
    ensures var a, m := old(s.currentAssignment), s.currentPartitionConsumer[p];
            && FirstInLine(g, a, p, m)
            && s.currentAssignment == a[m := a[m] + [p]]
            && s.currentPartitionConsumer == old(s.currentPartitionConsumer)[p := m]
    ensures IsSorted(order', s.currentAssignment)
  {
    hide ByTopic, IsSorted;
    assert g.consumersOf[p][0] in g.consumersOf[p] && g.consumersOf[p][0] in s.currentAssignment;
    var m := StickyAssignor.FirstPotential(g, order, s.currentAssignment, p);
    s.currentAssignment := s.currentAssignment[m := s.currentAssignment[m] + [p]];
    s.currentPartitionConsumer := s.currentPartitionConsumer[p := m];
    order' := SortMemberIDsByPartitionAssignments(s.currentAssignment);
  }

  lemma SkipCovers(g: Group, a: Assignment, owner: Owners, left: seq<Partition>)
    requires CoversBut(g, a, owner, left) && left != [] && g.consumersOf[left[0]] == []
    ensures CoversBut(g, a, owner, left[1..])
  {
    assert forall q :: q in left <==> q == left[0] || q in left[1..];
    hide Placed, Sound, Subscribed, Unlisted;
  }

  method AssignUnassigned(s: StickyAssignor, g: Group, unassigned: seq<Partition>, order: seq<Member>) returns (order': seq<Member>)
    requires WellFormed(g) && IsSorted(order, s.currentAssignment)
    requires CoversBut(g, s.currentAssignment, s.currentPartitionConsumer, unassigned)
    modifies s`currentAssignment, s`currentPartitionConsumer
    ensures CoversBut(g, s.currentAssignment, s.currentPartitionConsumer, [])
    ensures IsSorted(order', s.currentAssignment)
    ensures forall m, p :: m in old(s.currentAssignment) && p in old(s.currentAssignment[m]) ==> p in At(s.currentAssignment, m)
  {
    order' := order;
    assert unassigned[0..] == unassigned;
    for i := 0 to |unassigned|
      invariant CoversBut(g, s.currentAssignment, s.currentPartitionConsumer, unassigned[i..])
      invariant IsSorted(order', s.currentAssignment)
      invariant forall m, p :: m in old(s.currentAssignment) && p in old(s.currentAssignment[m]) ==> p in At(s.currentAssignment, m)
    {
      var p := unassigned[i];
      assert unassigned[i..][0] == p && unassigned[i..][1..] == unassigned[i + 1..];
      assert p in g.consumersOf;
      if |g.consumersOf[p]| == 0 {
        SkipCovers(g, s.currentAssignment, s.currentPartitionConsumer, unassigned[i..]);
        continue;
      }
      ghost var a, owner := s.currentAssignment, s.currentPartitionConsumer;
      order' := AssignPartition(s, g, p, order');
      GiveCovers(g, a, owner, unassigned[i..], s.currentPartitionConsumer[p]);
    }
    assert unassigned[|unassigned|..] == [];
  }

  // ------------------------------------------------------------------- who and what takes part

  /** Those of the partitions that are in `some`, in the same order. */
  function Among(list: seq<Partition>, some: set<Partition>): seq<Partition> {
    if list == [] then [] else if list[0] in some then [list[0]] + Among(list[1..], some) else Among(list[1..], some)
  }

  lemma {:induction false} AmongHas(list: seq<Partition>, some: set<Partition>)
    ensures forall p :: p in Among(list, some) <==> p in list && p in some
  {
    if list != [] { AmongHas(list[1..], some); }
  }

  lemma {:induction false} AmongLess(list: seq<Partition>, some: set<Partition>, p: Partition)
    requires NoDup(list)
    ensures Among(list, some - {p}) == Without(Among(list, some), p)
  {
    if list != [] {
      var rest := Among(list[1..], some);
      AmongLess(list[1..], some, p);
      if list[0] == p {
        assert p !in list[1..];
        AmongAll(list[1..], some, p);
        assert Among(list, some - {p}) == rest;
        AmongHas(list[1..], some);
        if p in some { assert ([p] + rest)[1..] == rest; } else { WithoutNone(rest, p); }
      } else {
        assert ([list[0]] + rest)[1..] == rest;
      }
    }
  }

  lemma {:induction false} WithoutNone(s: seq<Partition>, p: Partition)
    requires p !in s
    ensures Without(s, p) == s
  {
    if s != [] { WithoutNone(s[1..], p); }
  }

  lemma {:induction false} AmongAll(list: seq<Partition>, some: set<Partition>, p: Partition)
    requires p !in list
    ensures Among(list, some - {p}) == Among(list, some)
  {
    if list != [] {
      AmongAll(list[1..], some, p);
    }
  }

  lemma {:induction false} AmongEvery(list: seq<Partition>, some: set<Partition>)
    requires forall p :: p in list ==> p in some
    ensures Among(list, some) == list
  {
    if list != [] { AmongEvery(list[1..], some); }
  }

  /** The partitions that several members may have. */
  ghost function Shared(g: Group): set<Partition> {
    set p | p in g.consumersOf && |g.consumersOf[p]| >= 2
  }

  method Reassignable(g: Group, sorted: seq<Partition>) returns (list: seq<Partition>)
    requires NoDup(sorted) && forall p :: p in sorted <==> p in g.consumersOf
    ensures list == Among(sorted, Shared(g))
    ensures forall p :: p in list <==> p in g.consumersOf && |g.consumersOf[p]| >= 2
  {
    hide Among, NoDup;
    list := sorted;
    var left := g.consumersOf.Keys;
    AmongEvery(sorted, Shared(g) + left);
    while left != {}
      invariant left <= g.consumersOf.Keys && list == Among(sorted, Shared(g) + left)
      decreases left
    {
      var p :| p in left;
      LessShared(g, left, p);
      hide Shared;
      if |g.consumersOf[p]| < 2 {
        AmongLess(sorted, Shared(g) + left, p);
        list := RemoveTopicPartition(list, p);
      }
      left := left - {p};
    }
    assert Shared(g) + {} == Shared(g);
    AmongHas(sorted, Shared(g));
  }

  lemma LessShared(g: Group, left: set<Partition>, p: Partition)
    requires p in left && p in g.consumersOf
    ensures if |g.consumersOf[p]| < 2 then Shared(g) + (left - {p}) == Shared(g) + left - {p} else Shared(g) + (left - {p}) == Shared(g) + left
  {
  }

  method CanConsumerParticipate(g: Group, a: Assignment, m: Member) returns (can: bool)
    requires m in g.partitionsOf && m in a && forall p :: p in a[m] ==> p in g.consumersOf
    ensures can <==> !Fixed(g, a, m)
  {
    if |a[m]| < |g.partitionsOf[m]| { return true; }
    for i := 0 to |a[m]|
      invariant forall k :: 0 <= k < i ==> |g.consumersOf[a[m][k]]| < 2
    {
      if |g.consumersOf[a[m][i]]| >= 2 { return true; }
    }
    can := false;
  }

  /** `fixed` are the members set aside, with what they hold; `rest` are the others. */
  ghost predicate SetAside(g: Group, a: Assignment, fixed: Assignment, rest: Assignment) {
    && (forall m :: m in fixed <==> m in a && Fixed(g, a, m))
    && (forall m :: m in fixed ==> fixed[m] == a[m])
    && (forall m :: m in rest <==> m in a && !Fixed(g, a, m))
    && (forall m :: m in rest ==> rest[m] == a[m])
  }

  method SplitFixed(g: Group, a: Assignment) returns (fixed: Assignment, rest: Assignment)
    requires a.Keys == g.partitionsOf.Keys && forall m, p :: m in a && p in a[m] ==> p in g.consumersOf
    ensures SetAside(g, a, fixed, rest)
  {
    hide Fixed;
    fixed, rest := map[], a;
    var left := g.partitionsOf.Keys;
    while left != {}
      invariant left <= a.Keys
      invariant forall m :: m in fixed <==> m in a && m !in left && Fixed(g, a, m)
      invariant forall m :: m in fixed ==> fixed[m] == a[m]
      invariant forall m :: m in rest <==> m in a && (m in left || !Fixed(g, a, m))
      invariant forall m :: m in rest ==> rest[m] == a[m]
      decreases left
    {
      var m :| m in left;
      var can := CanConsumerParticipate(g, a, m);
      if !can {
        fixed := fixed[m := a[m]];
        rest := rest - {m};
      }
      left := left - {m};
    }
  }

  lemma RestIsSound(g: Group, a: Assignment, owner: Owners, fixed: Assignment, rest: Assignment)
    requires Sound(g, a, owner) && Subscribed(g, a) && SetAside(g, a, fixed, rest)
    ensures Sound(g, rest, owner) && Subscribed(g, rest)
  {
    hide Fixed;
  }

  /** Nobody who may have a reassignable partition is set aside. */
  lemma ReadyAt(g: Group, a: Assignment, owner: Owners, fixed: Assignment, rest: Assignment, p: Partition)
    requires WellFormed(g) && CoversBut(g, a, owner, []) && SetAside(g, a, fixed, rest)
    requires p in g.consumersOf && |g.consumersOf[p]| >= 2
    ensures Ready(g, rest, owner, p)
  {
    hide ByTopic, NoDup, Fixed, Unlisted;
    assert Placed(a, owner, p) && owner[p] in g.consumersOf[p];
    forall m | m in g.consumersOf[p] ensures m in rest {
      assert m in a;
      if m !in rest { FixedIsOut(g, a, owner, m, p); }
    }
  }

  lemma NoMovesYet(owner: Owners)
    ensures Indexed(NO_MOVES) && Safe(NO_MOVES, owner)
  {
  }

  lemma RestIsReady(g: Group, a: Assignment, owner: Owners, fixed: Assignment, rest: Assignment, list: seq<Partition>)
    requires WellFormed(g) && CoversBut(g, a, owner, []) && SetAside(g, a, fixed, rest)
    requires forall p :: p in list <==> p in g.consumersOf && |g.consumersOf[p]| >= 2
    ensures Work(g, list, rest, owner, NO_MOVES)
  {
    RestIsSound(g, a, owner, fixed, rest);
    NoMovesYet(owner);
    hide Sound, Subscribed, Ready, SetAside, CoversBut, WellFormed, Indexed, Safe;
    forall p | p in list ensures Ready(g, rest, owner, p) {
      ReadyAt(g, a, owner, fixed, rest, p);
    }
  }

  // ------------------------------------------------------------------------------ putting back

  /** The situation after the loop: `rest` became `now`, `owner` became `owner'`. */
  ghost predicate Reassigned(g: Group, a: Assignment, owner: Owners, fixed: Assignment, rest: Assignment,
                             list: seq<Partition>, now: Assignment, owner': Owners) {
    && CoversBut(g, a, owner, []) && SetAside(g, a, fixed, rest)
    && (forall p :: p in list <==> p in g.consumersOf && |g.consumersOf[p]| >= 2)
    && KeepsPlaces(list, rest, owner, now, owner')
    && Sound(g, now, owner') && Subscribed(g, now) && now.Keys == rest.Keys
  }

  lemma FixedStay(g: Group, a: Assignment, owner: Owners, fixed: Assignment, rest: Assignment,
                  list: seq<Partition>, now: Assignment, owner': Owners, m: Member, p: Partition)
    requires Reassigned(g, a, owner, fixed, rest, list, now, owner') && m in fixed && p in fixed[m]
    ensures p in owner' && owner'[p] == m && p in g.consumersOf && m in g.consumersOf[p]
  {
    assert m in a && p in a[m] && Fixed(g, a, m);
    assert p in At(a, m) && p !in list;
  }

  lemma ListedByOwner(g: Group, a: Assignment, owner: Owners, fixed: Assignment, rest: Assignment,
                      list: seq<Partition>, now: Assignment, owner': Owners, m: Member, p: Partition)
    requires Reassigned(g, a, owner, fixed, rest, list, now, owner') && m in now + fixed && p in (now + fixed)[m]
    ensures p in owner' && owner'[p] == m && p in g.consumersOf && m in g.consumersOf[p]
  {
    if m in fixed { FixedStay(g, a, owner, fixed, rest, list, now, owner', m, p); }
  }

  lemma StaysPlaced(g: Group, a: Assignment, owner: Owners, fixed: Assignment, rest: Assignment,
                    list: seq<Partition>, now: Assignment, owner': Owners, p: Partition)
    requires Reassigned(g, a, owner, fixed, rest, list, now, owner') && p in g.consumersOf && g.consumersOf[p] != []
    ensures Placed(now + fixed, owner', p)
  {
    assert Placed(a, owner, p);
    var m := owner[p];
    if m in fixed { FixedStay(g, a, owner, fixed, rest, list, now, owner', m, p); }
    else { assert Placed(rest, owner, p); assert Placed(now, owner', p); assert owner'[p] !in fixed; }
  }

  lemma AllMembers(g: Group, a: Assignment, owner: Owners, fixed: Assignment, rest: Assignment,
                   list: seq<Partition>, now: Assignment, owner': Owners)
    requires Reassigned(g, a, owner, fixed, rest, list, now, owner')
    ensures (now + fixed).Keys == a.Keys && forall m :: m in now + fixed ==> NoDup((now + fixed)[m])
  {
    hide KeepsPlaces, Placed, Fixed, Subscribed;
    forall m | m in now + fixed ensures NoDup((now + fixed)[m]) {
      if m in fixed { assert (now + fixed)[m] == a[m]; }
    }
  }

  /** Sticky coverage: with the members set aside put back, every partition that has a potential
      consumer belongs to exactly one member, subscribed to it. */
  lemma PutBackCovers(g: Group, a: Assignment, owner: Owners, fixed: Assignment, rest: Assignment,
                      list: seq<Partition>, now: Assignment, owner': Owners)
    requires Reassigned(g, a, owner, fixed, rest, list, now, owner')
    ensures Covers(g, now + fixed, owner') && (now + fixed).Keys == a.Keys
  {
    hide KeepsPlaces, NoDup, Placed, Fixed, Reassigned;
    var all := now + fixed;
    forall m, p | m in all && p in all[m] ensures p in owner' && owner'[p] == m && p in g.consumersOf && m in g.consumersOf[p] {
      ListedByOwner(g, a, owner, fixed, rest, list, now, owner', m, p);
    }
    forall p | p in g.consumersOf && g.consumersOf[p] != [] ensures Placed(all, owner', p) {
      StaysPlaced(g, a, owner, fixed, rest, list, now, owner', p);
    }
    AllMembers(g, a, owner, fixed, rest, list, now, owner');
  }

  /** Left as they are, without the members set aside, the maps cover exactly when none of those
      members holds a partition. */
  lemma NotPutBackCovers(g: Group, a: Assignment, owner: Owners, fixed: Assignment, rest: Assignment,
                         list: seq<Partition>, now: Assignment, owner': Owners)
    requires Reassigned(g, a, owner, fixed, rest, list, now, owner')
    ensures Covers(g, now, owner') <==> forall m :: m in fixed ==> fixed[m] == []
  {
    if forall m :: m in fixed ==> fixed[m] == [] {
      forall p | p in g.consumersOf && g.consumersOf[p] != [] ensures Placed(now, owner', p) {
        assert Placed(a, owner, p);
        assert Placed(rest, owner, p);
      }
    } else {
      var m :| m in fixed && fixed[m] != [];
      var p := fixed[m][0];
      FixedStay(g, a, owner, fixed, rest, list, now, owner', m, p);
      assert m !in now && !Placed(now, owner', p);
    }
  }
}
