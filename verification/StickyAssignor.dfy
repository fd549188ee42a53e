/** The sticky assignor as the object it is: the movement records, the assignment and its inverse are
    updated in place by nested loops. */
module StickyAssignors {
  import opened StickyMovements
  import opened StickyModel
  import opened StickyWork
  import opened StickyTurns

  // --------------------------------------------------------------- orders and balance tests

  /** All members of the assignment, once each, in their order. */
  ghost predicate IsSorted(order: seq<Member>, a: Assignment) {
    && (forall m :: m in order <==> m in a)
    && forall i, j :: 0 <= i < j < |order| ==> Earlier(a, order[i], order[j])
  }

  method SortMemberIDsByPartitionAssignments(a: Assignment) returns (order: seq<Member>)
    ensures IsSorted(order, a)
  {
    order := [];
    var left := a.Keys;
    while left != {}
      invariant left <= a.Keys && forall m :: m in order <==> m in a && m !in left
      invariant forall i, j :: 0 <= i < j < |order| ==> Earlier(a, order[i], order[j])
      invariant forall i, m :: 0 <= i < |order| && m in left ==> Earlier(a, order[i], m)
      decreases left
    {
      var first := Earliest(a, left);
      order := order + [first];
      left := left - {first};
    }
  }

  method Earliest(a: Assignment, ms: set<Member>) returns (first: Member)
    requires ms != {}
    ensures first in ms && forall m :: m in ms && m != first ==> Earlier(a, first, m)
  {
    first :| first in ms;
    var rest := ms - {first};
    while rest != {}
      invariant rest <= ms && first in ms && forall m :: m in ms && m !in rest && m != first ==> Earlier(a, first, m)
      decreases rest
    {
      var m :| m in rest;
      if Earlier(a, m, first) { first := m; }
      rest := rest - {m};
    }
  }

  ghost predicate Disjoint(a: Assignment) {
    forall m, n, p :: m in a && n in a && p in a[m] && p in a[n] ==> m == n
  }

  method OwnersIn(a: Assignment) returns (all: Owners)
    requires Disjoint(a)
    ensures forall p :: p in all ==> all[p] in a && p in a[all[p]]
    ensures forall m, p :: m in a && p in a[m] ==> p in all
  {
    all := map[];
    var left := a.Keys;
    while left != {}
      invariant left <= a.Keys
      invariant forall p :: p in all ==> all[p] in a && p in a[all[p]]
      invariant forall m, p :: m in a && m !in left && p in a[m] ==> p in all
      decreases left
    {
      var m :| m in left;
      left := left - {m};
      for i := 0 to |a[m]|
        invariant forall p :: p in all ==> all[p] in a && p in a[all[p]]
        invariant forall n, p :: n in a && n !in left && n != m && p in a[n] ==> p in all
        invariant forall p :: p in a[m][..i] ==> p in all
      {
        all := all[a[m][i] := m];
      }
      assert a[m][..|a[m]|] == a[m];
    }
  }

  /** Whether member m, not having all it could, could take a partition from a more loaded member. */
  method CouldGain(g: Group, a: Assignment, all: Owners, m: Member) returns (could: bool)
    requires m in a && Disjoint(a)
    requires forall p :: p in all ==> all[p] in a && p in a[all[p]]
    requires forall n, p :: n in a && p in a[n] ==> p in all
    ensures could <==> exists p, o :: p in At(g.partitionsOf, m) && p !in a[m] && o in a && p in a[o] && |a[m]| < |a[o]|
  {
    var potential := At(g.partitionsOf, m);
    for i := 0 to |potential|
      invariant forall p, o :: p in potential[..i] && p !in a[m] && o in a && p in a[o] ==> |a[o]| <= |a[m]|
    {
      var p := potential[i];
      if p !in a[m] && p in all && |a[m]| < |a[all[p]]| { return true; }
      assert potential[..i + 1] == potential[..i] + [p];
    }
    assert potential[..|potential|] == potential;
    could := false;
  }

  method IsBalanced(g: Group, a: Assignment) returns (balanced: bool)
    requires a != map[] && Disjoint(a)
    ensures balanced <==> Balanced(g, a)
  {
    hide Content, Disjoint;
    var order := SortMemberIDsByPartitionAssignments(a);
    var flat := IsLevel(a, order);
    if flat { return true; }
    var all := OwnersIn(a);
    for i := 0 to |order|
      invariant forall k :: 0 <= k < i ==> order[k] in a && Content(g, a, order[k])
    {
      var m := order[i];
      assert m in order;
      var content := IsContent(g, a, all, m);
      if !content { return false; }
    }
    forall m | m in a ensures Content(g, a, m) { assert m in order; }
    balanced := true;
  }

  method IsLevel(a: Assignment, order: seq<Member>) returns (flat: bool)
    requires a != map[] && IsSorted(order, a)
    ensures flat <==> Level(a)
  {
    assert order != [] by { var m :| m in a; assert m in order; }
    var min, max := |At(a, order[0])|, |At(a, order[|order| - 1])|;
    assert forall i :: 0 <= i < |order| ==> order[i] in order && order[i] in a && min <= |a[order[i]]| <= max;
    flat := min >= max - 1;
    if flat {
      forall m, n | m in a && n in a ensures |a[n]| <= |a[m]| + 1 { assert m in order && n in order; }
    }
  }

  method IsContent(g: Group, a: Assignment, all: Owners, m: Member) returns (content: bool)
    requires m in a && Disjoint(a)
    requires forall p :: p in all ==> all[p] in a && p in a[all[p]]
    requires forall n, p :: n in a && p in a[n] ==> p in all
    ensures content <==> Content(g, a, m)
  {
    if |a[m]| == |At(g.partitionsOf, m)| { return true; }
    var could := CouldGain(g, a, all, m);
    content := !could;
  }

  // --------------------------------------------------------------------------- the assignor

  class StickyAssignor {
    var movements: PartitionMovements
    var currentAssignment: Assignment
    var currentPartitionConsumer: Owners
    /** The moves made so far. */
    ghost var history: seq<Step>

    constructor ()
      ensures fresh(movements) && movements.Valid() && movements.Abs() == NO_MOVES
      ensures currentAssignment == map[] && currentPartitionConsumer == map[] && history == []
    {
      movements := new PartitionMovements();
      currentAssignment, currentPartitionConsumer, history := map[], map[], [];
    }

    /** What the loop works on. */
    ghost function Now(): Sheet
      reads this, movements
    {
      Sheet(currentAssignment, currentPartitionConsumer, movements.Abs())
    }

    method ProcessPartitionMovement(q: Partition, to: Member) returns (order: seq<Member>)
      requires movements.Valid() && Placed(currentAssignment, currentPartitionConsumer, q)
      modifies this`currentAssignment, this`currentPartitionConsumer, this`history, movements
      ensures Now() == Carry(old(Now()), q, to) && history == old(history) + [StepOf(old(Now()), q, to)]
      ensures IsSorted(order, currentAssignment)
    {
      hide IsSorted, MoveRecord;
      var from := currentPartitionConsumer[q];
      movements.MovePartition(q, from, to);
      history := history + [Step(q, from, to, |At(currentAssignment, from)|, |At(currentAssignment, to)|)];
      var kept := RemoveTopicPartition(currentAssignment[from], q);
      currentAssignment := currentAssignment[from := kept];
      currentAssignment := currentAssignment[to := At(currentAssignment, to) + [q]];
      currentPartitionConsumer := currentPartitionConsumer[q := to];
      order := SortMemberIDsByPartitionAssignments(currentAssignment);
    }

    /** Moves p, or the partition that thereby goes back, to where p should go. */
    method ReassignPartition(g: Group, list: seq<Partition>, p: Partition, to: Member) returns (order: seq<Member>)
      requires WellFormed(g) && AtWork(g, list, Now()) && p in list && Aims(g, Now(), p, to)
      modifies this`currentAssignment, this`currentPartitionConsumer, this`history, movements
      ensures old(history) <= history && Turn(g, old(Now()), p, Now(), history[|old(history)|..]) && history != old(history)
      ensures IsSorted(order, currentAssignment)
    {
      var from := currentPartitionConsumer[p];
      SoundAtWork(g, list, Now());
      hide AtWork, IsSorted, Carry, WellFormed, Rests, Indexed;
      var q := movements.GetTheActualPartitionToBeMoved(p, from, to);
      ghost var s := Now();
      ChosenIsOwned(g, list, s, p, to, q);
      assert Moving(g, s, p, to, q);
      MovingKeeps(g, list, s, p, to, q);
      order := ProcessPartitionMovement(q, to);
      assert history[|old(history)|..] == [StepOf(s, q, to)];
    }

    /** The first member in order that may have p. */
    static method FirstPotential(g: Group, order: seq<Member>, a: Assignment, p: Partition) returns (found: Member)
      requires Mirrored(g) && IsSorted(order, a) && p in g.consumersOf && exists m :: m in g.consumersOf[p] && m in a
      ensures FirstInLine(g, a, p, found)
    {
      ghost var any :| any in g.consumersOf[p] && any in a;
      assert any in order;
      ghost var k :| 0 <= k < |order| && order[k] == any;
      var i := 0;
      while p !in At(g.partitionsOf, order[i])
        invariant 0 <= i <= k && forall j :: 0 <= j < i ==> p !in At(g.partitionsOf, order[j])
        decreases k - i
      {
        i := i + 1;
      }
      found := order[i];
      FoundIsFirst(g, order, a, p, i);
    }

    /** Where p should go: to its previous owner when that has at least two fewer partitions, else to
        the first in line when any potential owner has. */
    static method ChooseTarget(g: Group, ghost s: Sheet, a: Assignment, owner: Owners, p: Partition, order: seq<Member>) returns (found: bool, to: Member)
      requires WellFormed(g) && s.a == a && s.owner == owner && Ready(g, a, owner, p) && IsSorted(order, a) && !Balanced(g, a)
      ensures if found then Aims(g, s, p, to) else Rests(g, s, p)
    {
      hide Balanced, IsSorted, ByTopic;
      var consumer := owner[p];
      if p in g.prev && |a[consumer]| > |At(a, g.prev[p])| + 1 { return true, g.prev[p]; }
      var others := g.consumersOf[p];
      for i := 0 to |others|
        invariant forall k :: 0 <= k < i ==> |a[consumer]| <= |At(a, others[k])| + 1
      {
        if |a[consumer]| > |At(a, others[i])| + 1 {
          assert others[i] in g.consumersOf[p] && others[i] in a;
          to := FirstPotential(g, order, a, p);
          return true, to;
        }
      }
      found, to := false, consumer;
    }

    /** The body of the loop over partitions. */
    method Improve(g: Group, list: seq<Partition>, p: Partition, order: seq<Member>) returns (order': seq<Member>, moved: bool)
      requires WellFormed(g) && AtWork(g, list, Now()) && p in list && IsSorted(order, currentAssignment) && !Balanced(g, currentAssignment)
      modifies this`currentAssignment, this`currentPartitionConsumer, this`history, movements
      ensures old(history) <= history && Turn(g, old(Now()), p, Now(), history[|old(history)|..])
      ensures moved <==> history != old(history)
      ensures IsSorted(order', currentAssignment)
    {
      hide AtWork, IsSorted, WellFormed, Ready, Balanced, Aims, Moving, Rests, Carry;
      ReadyAtWork(g, list, Now(), p);
      var to;
      moved, to := ChooseTarget(g, Now(), currentAssignment, currentPartitionConsumer, p, order);
      order' := order;
      if moved { order' := ReassignPartition(g, list, p, to); }
    }

    /** One pass over the partitions, cut short when a balance is reached. */
    method Pass(g: Group, list: seq<Partition>, order: seq<Member>) returns (order': seq<Member>, modified: bool)
      requires WellFormed(g) && AtWork(g, list, Now()) && IsSorted(order, currentAssignment)
      modifies this`currentAssignment, this`currentPartitionConsumer, this`history, movements
      ensures old(history) <= history && PassOf(g, old(Now()), list, Now(), history[|old(history)|..])
      ensures modified <==> history != old(history)
      ensures AtWork(g, list, Now()) && IsSorted(order', currentAssignment)
    {
      hide AtWork, IsSorted, WellFormed, Balanced, Turn, PassOf;
      order', modified := order, false;
      NoTurns(g, Now());
      assert list[..0] == [] && history[|old(history)|..] == [];
      for i := 0 to |list|
        invariant AtWork(g, list, Now()) && IsSorted(order', currentAssignment)
        invariant old(history) <= history && (modified <==> history != old(history))
        invariant PassOf(g, old(Now()), list[..i], Now(), history[|old(history)|..])
      {
        HasMembers(g, list, Now(), list[i]);
        var balanced := IsBalanced(g, currentAssignment);
        if balanced {
          BalancedRests(g, old(Now()), list, i, Now(), history[|old(history)|..]);
          return;
        }
        ghost var s, h := Now(), history;
        var moved;
        order', moved := Improve(g, list, list[i], order');
        if moved { modified := true; }
        TurnKeeps(g, list, s, list[i], Now(), history[|h|..]);
        assert history[|old(history)|..] == h[|old(history)|..] + history[|h|..];
        OneMoreTurn(g, old(Now()), list, i, s, h[|old(history)|..], Now(), history[|h|..]);
      }
      assert list[..|list|] == list;
    }

    /** Passes until one makes no move, at most `passes` of them; `n` is how many made one. */
    method PerformReassignments(g: Group, list: seq<Partition>, order: seq<Member>, passes: nat) returns (performed: bool, done: bool, ghost n: nat)
      requires WellFormed(g) && AtWork(g, list, Now()) && IsSorted(order, currentAssignment)
      modifies this`currentAssignment, this`currentPartitionConsumer, this`history, movements
      ensures old(history) <= history && Runs(g, list, old(Now()), n, Now(), history[|old(history)|..])
      ensures AtWork(g, list, Now()) && (performed <==> history != old(history))
      ensures if done then PassOf(g, Now(), list, Now(), []) else n == passes
    {
      hide AtWork, IsSorted, WellFormed, PassOf, Runs;
      performed, done, n := false, false, 0;
      var order' := order;
      NoPasses(g, list, Now());
      assert history[|old(history)|..] == [];
      for i := 0 to passes
        invariant n == i && AtWork(g, list, Now()) && IsSorted(order', currentAssignment)
        invariant old(history) <= history && (performed <==> history != old(history))
        invariant Runs(g, list, old(Now()), n, Now(), history[|old(history)|..])
      {
        ghost var s, h := Now(), history;
        var modified;
        order', modified := Pass(g, list, order');
        assert history[|old(history)|..] == h[|old(history)|..] + history[|h|..];
        if !modified {
          assert history[|h|..] == [];
          PassKeeps(g, list, s, list, Now(), []);
          done := true;
          return;
        }
        assert history[|h|..] != [];
        performed := true;
        OneMorePass(g, list, old(Now()), n, s, h[|old(history)|..], Now(), history[|h|..]);
        n := n + 1;
      }
    }
  }

  lemma FoundIsFirst(g: Group, order: seq<Member>, a: Assignment, p: Partition, i: nat)
    requires Mirrored(g) && IsSorted(order, a) && p in g.consumersOf && i < |order|
    requires p in At(g.partitionsOf, order[i]) && forall j :: 0 <= j < i ==> p !in At(g.partitionsOf, order[j])
    ensures FirstInLine(g, a, p, order[i])
  {
    forall n | n in a && n in g.consumersOf[p] && n != order[i] ensures Earlier(a, order[i], n) {
      assert n in order;
      var j :| 0 <= j < |order| && order[j] == n;
    }
  }

  lemma ChosenIsOwned(g: Group, list: seq<Partition>, s: Sheet, p: Partition, to: Member, q: Partition)
    requires AtWork(g, list, s) && p in list && Aims(g, s, p, to) && MayMove(s.mv, p, s.owner[p], to, q)
    ensures q in s.owner
  {
    ReadyAtWork(g, list, s, p);
    AimIsLower(g, s, p, to);
    MoveKeepsSafe(s.mv, s.owner, p, to, q);
  }

  lemma HasMembers(g: Group, list: seq<Partition>, s: Sheet, p: Partition)
    requires AtWork(g, list, s) && p in list
    ensures s.a != map[] && Disjoint(s.a)
  {
    ReadyAtWork(g, list, s, p);
    SoundAtWork(g, list, s);
    hide AtWork;
    assert s.owner[p] in s.a;
    forall m, n, q | m in s.a && n in s.a && q in s.a[m] && q in s.a[n] ensures m == n {
      assert s.owner[q] == m && s.owner[q] == n;
    }
  }

  lemma NoTurns(g: Group, s: Sheet)
    ensures PassOf(g, s, [], s, [])
  {
  }

  lemma NoPasses(g: Group, list: seq<Partition>, s: Sheet)
    ensures Runs(g, list, s, 0, s, [])
  {
  }

  lemma OneMoreTurn(g: Group, s: Sheet, list: seq<Partition>, i: nat, mid: Sheet, first: seq<Step>, s': Sheet, last: seq<Step>)
    requires i < |list| && PassOf(g, s, list[..i], mid, first) && Turn(g, mid, list[i], s', last)
    ensures PassOf(g, s, list[..i + 1], s', first + last)
  {
    hide Turn;
    assert Front(list[..i + 1]) == list[..i] && Back(list[..i + 1]) == list[i];
  }

  lemma OneMorePass(g: Group, list: seq<Partition>, s: Sheet, n: nat, mid: Sheet, first: seq<Step>, s': Sheet, last: seq<Step>)
    requires Runs(g, list, s, n, mid, first) && PassOf(g, mid, list, s', last) && last != []
    ensures Runs(g, list, s, n + 1, s', first + last)
  {
    hide PassOf;
  }

  /** Once a balance is reached the rest of the pass moves nothing. */
  lemma {:induction false} BalancedRests(g: Group, s: Sheet, list: seq<Partition>, i: nat, s': Sheet, steps: seq<Step>)
    requires i <= |list| && PassOf(g, s, list[..i], s', steps) && Balanced(g, s'.a)
    ensures PassOf(g, s, list, s', steps)
    decreases |list| - i
  {
    hide PassOf, Balanced;
    if i == |list| {
      assert list[..i] == list;
    } else {
      assert steps + [] == steps;
      OneMoreTurn(g, s, list, i, s', steps, s', []);
      BalancedRests(g, s, list, i + 1, s', steps);
    }
  }

  method RemoveTopicPartition(s: seq<Partition>, p: Partition) returns (r: seq<Partition>)
    ensures r == Without(s, p)
  {
    var i := 0;
    while i < |s|
      invariant i <= |s|
      invariant Without(s, p) == s[..i] + Without(s[i..], p)
    {
      WithoutHead(s[..i], s[i..], p);
      assert s[i..][1..] == s[i + 1..] && s[..i] + [s[i]] == s[..i + 1];
      if s[i] == p { return s[..i] + s[i + 1..]; }
      i := i + 1;
    }
    assert s[..i] == s && s[i..] == [];
    r := s;
  }

  lemma WithoutHead(front: seq<Partition>, s: seq<Partition>, p: Partition)
    requires s != []
    ensures front + Without(s, p) == if s[0] == p then front + s[1..] else front + [s[0]] + Without(s[1..], p)
  {
  }
}
