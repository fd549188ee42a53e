/** What becomes of subscriptions when a previous owner is not subscribed any more: the test for it
    does not ask. Exactly the turns that move to such a member break the subscriptions, and there are
    groups where that happens. */
module StickyUnsubscribed {
  import opened StickyMovements
  import opened StickyScore
  import opened StickyModel
  import opened StickyTurns
  import opened StickyPlan
  import opened StickyBalance

  /** A move keeps everybody subscribed to what they hold exactly when its target is subscribed. */
  lemma MoveKeepsSubscribedIff(g: Group, a: Assignment, owner: Owners, q: Partition, to: Member)
    requires Sound(g, a, owner) && Subscribed(g, a) && Placed(a, owner, q) && owner[q] != to
    ensures Subscribed(g, Shift(a, q, owner[q], to)) <==> to in g.consumersOf[q]
  {
    ShiftLists(a, q, owner[q], to, owner, g);
    hide Shift;
    var b := Shift(a, q, owner[q], to);
    assert to in b && q in b[to];
  }

  /** The guard under which a turn breaks the subscriptions: no balance is reached, and the previous
      owner of p, not subscribed to it, has at least two fewer partitions than its owner. */
  ghost predicate Strays(g: Group, s: Sheet, p: Partition) {
    !Balanced(g, s.a) && GoesBack(g, s, p) && p in g.consumersOf && g.prev[p] !in g.consumersOf[p]
  }

  /** The turn of p keeps everybody subscribed to what they hold if and only if that guard is false,
      whichever partition is actually moved. */
  lemma TurnKeepsSubscribedIff(g: Group, list: seq<Partition>, s: Sheet, p: Partition, s': Sheet, steps: seq<Step>)
    requires WellFormed(g) && AtWork(g, list, s) && p in list && Subscribed(g, s.a) && Turn(g, s, p, s', steps)
    ensures Subscribed(g, s'.a) <==> !Strays(g, s, p)
  {
    ReadyAtWork(g, list, s, p);
    hide AtWork, Balanced, Subscribed, Carry, MayMove, Indexed;
    if !Rests(g, s, p) {
      var to, q :| Moving(g, s, p, to, q) && s' == Carry(s, q, to) && steps == [StepOf(s, q, to)];
      MovingKeeps(g, list, s, p, to, q);
      ReadyAtWork(g, list, s, q);
      SoundAtWork(g, list, s);
      CarryShifts(s, q, to);
      MoveKeepsSubscribedIff(g, s.a, s.owner, q, to);
    }
  }

  lemma CarryShifts(s: Sheet, q: Partition, to: Member)
    requires q in s.owner && Indexed(s.mv)
    ensures Carry(s, q, to).a == Shift(s.a, q, s.owner[q], to)
  {
  }

  /** A partition moved to a member that has been set aside is lost when that member is put back with
      what it held before. */
  lemma MovedToFixedIsLost(g: Group, a: Assignment, owner: Owners, fixed: Assignment, rest: Assignment, p: Partition, to: Member)
    requires Sound(g, a, owner) && SetAside(g, a, fixed, rest) && Placed(rest, owner, p) && to in fixed
    ensures var now := Shift(rest, p, owner[p], to);
            forall m :: m in now + fixed ==> p !in (now + fixed)[m]
  {
    hide Fixed;
    assert Sound(g, rest, owner);
    ShiftLists(rest, p, owner[p], to, owner, g);
    hide Shift;
  }

  // -------------------------------------------------------------------------- determined runs

  lemma OnlyTurn(g: Group, s: Sheet, p: Partition, to: Member, s': Sheet, steps: seq<Step>)
    requires Turn(g, s, p, s', steps) && !Rests(g, s, p) && p in s.owner && Indexed(s.mv) && forall m :: Aims(g, s, p, m) ==> m == to
    requires Under(s.mv.byTopic, p.topic, ReversePair(s.mv, p, s.owner[p], to)) == {}
    ensures s' == Carry(s, p, to) && steps == [StepOf(s, p, to)]
  {
    hide Rests, Aims, Carry, Indexed;
  }

  lemma {:induction false} BalancedStays(g: Group, s: Sheet, list: seq<Partition>, s': Sheet, steps: seq<Step>)
    requires Balanced(g, s.a) && PassOf(g, s, list, s', steps)
    ensures s' == s && steps == []
    decreases |list|
  {
    hide Balanced;
    if list != [] {
      var mid, first, last :| PassOf(g, s, Front(list), mid, first) && Turn(g, mid, Back(list), s', last) && steps == first + last;
      BalancedStays(g, s, Front(list), mid, first);
    }
  }

  /** The first k turns can only make the moves `moves`, which lead to a balance at t. */
  ghost predicate Settles(g: Group, s: Sheet, list: seq<Partition>, k: nat, t: Sheet, moves: seq<Step>) {
    k <= |list| && Balanced(g, t.a) && moves != [] && forall s', steps :: PassOf(g, s, list[..k], s', steps) ==> s' == t && steps == moves
  }

  lemma {:induction false} SettledPass(g: Group, s: Sheet, list: seq<Partition>, k: nat, t: Sheet, moves: seq<Step>, i: nat, s': Sheet, steps: seq<Step>)
    requires Settles(g, s, list, k, t, moves) && k <= i <= |list| && PassOf(g, s, list[..i], s', steps)
    ensures s' == t && steps == moves
    decreases i
  {
    hide Balanced;
    if i > k {
      assert Front(list[..i]) == list[..i - 1] && Back(list[..i]) == list[i - 1];
      var mid, first, last :| PassOf(g, s, list[..i - 1], mid, first) && Turn(g, mid, list[i - 1], s', last) && steps == first + last;
      SettledPass(g, s, list, k, t, moves, i - 1, mid, first);
    }
  }

  /** Then the loop, when it is done, has made just those moves. */
  lemma {:induction false} SettledRun(g: Group, s: Sheet, list: seq<Partition>, k: nat, t: Sheet, moves: seq<Step>, n: nat, end: Sheet, steps: seq<Step>)
    requires Settles(g, s, list, k, t, moves) && Runs(g, list, s, n, end, steps)
    ensures if n == 0 then end == s && steps == [] else end == t && steps == moves
    decreases n
  {
    hide Settles, PassOf;
    assert list[..|list|] == list;
    if n > 0 {
      var mid, first, last :| Runs(g, list, s, n - 1, mid, first) && PassOf(g, mid, list, end, last) && last != [] && steps == first + last;
      SettledRun(g, s, list, k, t, moves, n - 1, mid, first);
      if n == 1 {
        SettlesWithin(g, s, list, k, t, moves);
        SettledPass(g, s, list, k, t, moves, |list|, end, last);
      } else {
        SettlesWithin(g, s, list, k, t, moves);
        BalancedStays(g, t, list, end, last);
      }
    }
  }

  lemma SettlesWithin(g: Group, s: Sheet, list: seq<Partition>, k: nat, t: Sheet, moves: seq<Step>)
    requires Settles(g, s, list, k, t, moves)
    ensures k <= |list| && Balanced(g, t.a)
  {
  }

  lemma SettlesThere(g: Group, s: Sheet, list: seq<Partition>, k: nat, t: Sheet, moves: seq<Step>)
    requires k <= |list| && Balanced(g, t.a) && moves != [] && forall s', steps :: PassOf(g, s, list[..k], s', steps) ==> s' == t && steps == moves
    ensures Settles(g, s, list, k, t, moves)
  {
  }

  lemma SettledLoop(g: Group, s: Sheet, list: seq<Partition>, k: nat, t: Sheet, moves: seq<Step>, passes: nat, n: nat, end: Sheet, steps: seq<Step>)
    requires Settles(g, s, list, k, t, moves) && Looped(g, list, s, passes, true, n, end, steps)
    ensures end == t && steps == moves
  {
    hide PassOf, Runs, Balanced;
    SettledRun(g, s, list, k, t, moves, n, end, steps);
    assert list[..|list|] == list;
    if n == 0 { SettledPass(g, s, list, k, t, moves, |list|, s, []); }
  }

  lemma PassOfOne(g: Group, s: Sheet, p: Partition, s': Sheet, steps: seq<Step>)
    requires PassOf(g, s, [p], s', steps)
    ensures Turn(g, s, p, s', steps)
  {
    hide Turn;
    var mid, first, last :| PassOf(g, s, Front([p]), mid, first) && Turn(g, mid, Back([p]), s', last) && steps == first + last;
    assert first + last == last;
  }

  lemma PassOfTwo(g: Group, s: Sheet, p: Partition, q: Partition, s': Sheet, steps: seq<Step>) returns (mid: Sheet, first: seq<Step>, last: seq<Step>)
    requires PassOf(g, s, [p, q], s', steps)
    ensures Turn(g, s, p, mid, first) && Turn(g, mid, q, s', last) && steps == first + last
  {
    hide Turn;
    mid, first, last :| PassOf(g, s, Front([p, q]), mid, first) && Turn(g, mid, Back([p, q]), s', last) && steps == first + last;
    assert Front([p, q]) == [p];
    PassOfOne(g, s, p, mid, first);
  }

  // ------------------------------------------------------------------------------ three groups

  const A := Member(0)
  const B := Member(1)
  /** The member that has left topic 0. */
  const F := Member(2)

  const P0 := Partition(Topic(0), 0)
  const P1 := Partition(Topic(0), 1)
  const P2 := Partition(Topic(0), 2)
  const P3 := Partition(Topic(0), 3)
  const R := Partition(Topic(1), 0)

  /** A and B are subscribed to topic 0, B and F to topic 1; F had the first partition of topic 0. */
  const PLAYING: Group := Group(map[P0 := [A, B], P1 := [A, B], P2 := [A, B], R := [B, F]],
                                map[A := [P0, P1, P2], B := [P0, P1, P2, R], F := [R]], map[P0 := F])

  const PLAYING_START: Sheet := Sheet(map[A := [P0, P1, P2], B := [R], F := []], map[P0 := A, P1 := A, P2 := A, R := B], NO_MOVES)

  ghost predicate Gives(g: Group, owner: Owners, m: Member, p: Partition) {
    p in owner && owner[p] == m && p in g.consumersOf && m in g.consumersOf[p]
  }

  lemma CoversFrom(g: Group, a: Assignment, owner: Owners)
    requires a.Keys == g.partitionsOf.Keys && (forall m :: m in a ==> NoDup(a[m]))
    requires (forall m, p :: p in At(a, m) ==> Gives(g, owner, m, p)) && forall p :: p in g.consumersOf ==> Placed(a, owner, p)
    ensures CoversBut(g, a, owner, [])
  {
    hide NoDup, Placed;
    forall m, p | m in a && p in a[m] ensures Gives(g, owner, m, p) { assert p in At(a, m); }
    assert NoDup<Partition>([]) by { NothingTwice(); }
  }

  lemma NothingTwice()
    ensures NoDup<Partition>([])
  {
  }

  lemma PlayingListed(m: Member, p: Partition)
    requires p in At(PLAYING_START.a, m)
    ensures Gives(PLAYING, PLAYING_START.owner, m, p)
  {
    assert m == A || m == B;
    assert p == P0 || p == P1 || p == P2 || p == R;
  }

  lemma PlayingCovers()
    ensures CoversBut(PLAYING, PLAYING_START.a, PLAYING_START.owner, [])
  {
    hide CoversBut;
    var a := PLAYING_START.a;
    forall m, p | p in At(a, m) ensures Gives(PLAYING, PLAYING_START.owner, m, p) { PlayingListed(m, p); }
    assert a.Keys == PLAYING.partitionsOf.Keys;
    assert NoDup([P0, P1, P2]) && forall m :: m in a ==> NoDup(a[m]);
    forall p | p in PLAYING.consumersOf ensures Placed(a, PLAYING_START.owner, p) {
      assert p == P0 || p == P1 || p == P2 || p == R;
    }
    CoversFrom(PLAYING, a, PLAYING_START.owner);
  }

  lemma PlayingBegins()
    ensures Begins(PLAYING, [P0, P1, P2, R], PLAYING_START.a, map[], [P0, P1, P2, R], PLAYING_START)
  {
    var a := PLAYING_START.a;
    PlayingCovers();
    assert P0 in At(a, A) && |PLAYING.consumersOf[P0]| == 2;
    assert !Fixed(PLAYING, a, A) && !Fixed(PLAYING, a, B) && !Fixed(PLAYING, a, F);
    hide CoversBut, Fixed, Among;
    assert a + map[] == a;
    assert Shared(PLAYING) == {P0, P1, P2, R};
    AmongEvery([P0, P1, P2, R], Shared(PLAYING));
  }

  lemma PlayingStrays()
    ensures Strays(PLAYING, PLAYING_START, P0)
  {
    CouldTake(PLAYING, PLAYING_START.a, B, P0, A);
    hide Balanced;
  }

  lemma PlayingTurn(s': Sheet, steps: seq<Step>)
    requires Turn(PLAYING, PLAYING_START, P0, s', steps)
    ensures s' == Carry(PLAYING_START, P0, F) && steps == [Step(P0, A, F, 3, 0)]
  {
    PlayingStrays();
    hide Carry, Turn, Balanced;
    OnlyTurn(PLAYING, PLAYING_START, P0, F, s', steps);
  }

  lemma PlayingEnd()
    ensures Carry(PLAYING_START, P0, F).a == map[A := [P1, P2], B := [R], F := [P0]] && Level(Carry(PLAYING_START, P0, F).a)
  {
    assert Without([P0, P1, P2], P0) == [P1, P2];
    var less := PLAYING_START.a[A := [P1, P2]];
    assert At(less, F) + [P0] == [P0];
    assert less[F := [P0]] == map[A := [P1, P2], B := [R], F := [P0]];
  }

  /** Whenever the loop is done, the partition is with its previous owner, which is not subscribed. */
  lemma EndsUnsubscribed(passes: nat, n: nat, end: Sheet, steps: seq<Step>)
    requires Looped(PLAYING, [P0, P1, P2, R], PLAYING_START, passes, true, n, end, steps)
    ensures Begins(PLAYING, [P0, P1, P2, R], PLAYING_START.a, map[], [P0, P1, P2, R], PLAYING_START) && Strays(PLAYING, PLAYING_START, P0)
    ensures F in end.a && P0 in end.a[F] && F !in PLAYING.consumersOf[P0] && !Subscribed(PLAYING, end.a)
  {
    hide Turn, PassOf, Runs, Begins;
    var g, s, list, t, moves := PLAYING, PLAYING_START, [P0, P1, P2, R], Carry(PLAYING_START, P0, F), [Step(P0, A, F, 3, 0)];
    PlayingEnd();
    hide Carry;
    assert list[..1] == [P0];
    forall s', us | PassOf(g, s, list[..1], s', us) ensures s' == t && us == moves {
      PassOfOne(g, s, P0, s', us);
      PlayingTurn(s', us);
    }
    SettledLoop(g, s, list, 1, t, moves, passes, n, end, steps);
    PlayingStrays();
    PlayingBegins();
  }

  /** A and B are subscribed to topic 0, F only to topic 1, alone. B is new and F is set aside. */
  const ASIDE: Group := Group(map[P0 := [A, B], P1 := [A, B], P2 := [A, B], R := [F]],
                              map[A := [P0, P1, P2], B := [P0, P1, P2], F := [R]], map[P0 := F])

  const ASIDE_START: Sheet := Sheet(map[A := [P0, P1, P2], B := []], map[P0 := A, P1 := A, P2 := A, R := F], NO_MOVES)

  const ASIDE_FIXED: Assignment := map[F := [R]]

  const ASIDE_HELD: Assignment := map[A := [P0, P1, P2], B := [], F := [R]]

  lemma AsideListed(m: Member, p: Partition)
    requires p in At(ASIDE_HELD, m)
    ensures Gives(ASIDE, ASIDE_START.owner, m, p)
  {
    assert m == A || m == F;
    assert p == P0 || p == P1 || p == P2 || p == R;
  }

  lemma AsideCovers()
    ensures CoversBut(ASIDE, ASIDE_HELD, ASIDE_START.owner, [])
  {
    hide CoversBut;
    forall m, p | p in At(ASIDE_HELD, m) ensures Gives(ASIDE, ASIDE_START.owner, m, p) { AsideListed(m, p); }
    assert ASIDE_HELD.Keys == ASIDE.partitionsOf.Keys;
    assert NoDup([P0, P1, P2]) && forall m :: m in ASIDE_HELD ==> NoDup(ASIDE_HELD[m]);
    forall p | p in ASIDE.consumersOf ensures Placed(ASIDE_HELD, ASIDE_START.owner, p) {
      assert p == P0 || p == P1 || p == P2 || p == R;
    }
    CoversFrom(ASIDE, ASIDE_HELD, ASIDE_START.owner);
  }

  lemma AsideIsAside()
    ensures SetAside(ASIDE, ASIDE_HELD, ASIDE_FIXED, ASIDE_START.a)
  {
    assert P0 in At(ASIDE_HELD, A) && |ASIDE.consumersOf[P0]| == 2;
    assert !Fixed(ASIDE, ASIDE_HELD, A) && !Fixed(ASIDE, ASIDE_HELD, B) && Fixed(ASIDE, ASIDE_HELD, F);
    hide Fixed;
  }

  lemma AsideBegins()
    ensures Begins(ASIDE, [R, P0, P1, P2], ASIDE_HELD, ASIDE_FIXED, [P0, P1, P2], ASIDE_START)
  {
    AsideCovers();
    AsideIsAside();
    hide CoversBut, SetAside;
    assert ASIDE_START.a + ASIDE_FIXED == ASIDE_HELD;
    assert Shared(ASIDE) == {P0, P1, P2};
    AmongEvery([P0, P1, P2], Shared(ASIDE));
    assert [R, P0, P1, P2][1..] == [P0, P1, P2];
  }

  lemma AsideFirst(s': Sheet, steps: seq<Step>)
    requires Turn(ASIDE, ASIDE_START, P0, s', steps)
    ensures s' == Carry(ASIDE_START, P0, F) && steps == [Step(P0, A, F, 3, 0)]
  {
    var g, s := ASIDE, ASIDE_START;
    hide Carry, Turn, Balanced;
    CouldTake(g, s.a, B, P0, A);
    OnlyTurn(g, s, P0, F, s', steps);
  }

  /** What a move of q does to three members' lists. */
  lemma ThreeLists(a: Assignment, q: Partition, from: Member, to: Member, x: seq<Partition>, y: seq<Partition>)
    requires from in a && from != to && Without(a[from], q) == x && At(a, to) + [q] == y
    ensures Shift(a, q, from, to) == a[from := x][to := y]
  {
  }

  lemma AsideMid()
    ensures var t := Carry(ASIDE_START, P0, F);
            t.a == map[A := [P1, P2], B := [], F := [P0]] && t.owner == ASIDE_START.owner[P0 := F]
            && Indexed(t.mv) && t.mv.records == map[P0 := Pair(A, F)]
  {
    assert Without([P0, P1, P2], P0) == [P1, P2] && [] + [P0] == [P0];
    ThreeLists(ASIDE_START.a, P0, A, F, [P1, P2], [P0]);
    MoveKeepsIndex(NO_MOVES, P0, A, F);
    hide Shift, Indexed;
    assert ASIDE_START.a[A := [P1, P2]][F := [P0]] == map[A := [P1, P2], B := [], F := [P0]];
  }

  lemma AsideAims(s: Sheet)
    requires s.a == map[A := [P1, P2], B := [], F := [P0]] && s.owner == ASIDE_START.owner[P0 := F]
    ensures !Rests(ASIDE, s, P1) && forall m :: Aims(ASIDE, s, P1, m) ==> m == B
  {
    var g := ASIDE;
    hide Balanced;
    CouldTake(g, s.a, B, P1, A);
    assert B in g.consumersOf[P1];
    forall m | Aims(g, s, P1, m) ensures m == B {
      assert m == A || m == B;
      assert m == A ==> Earlier(s.a, A, B);
    }
  }

  lemma AsideSecond(s': Sheet, steps: seq<Step>)
    requires Turn(ASIDE, Carry(ASIDE_START, P0, F), P1, s', steps)
    ensures s' == Carry(Carry(ASIDE_START, P0, F), P1, B) && steps == [Step(P1, A, B, 2, 0)]
  {
    var g, s := ASIDE, Carry(ASIDE_START, P0, F);
    AsideMid();
    AsideAims(s);
    UnderIsRecorded(s.mv, P1.topic, Pair(B, A));
    hide Turn, Rests, Aims, Indexed, Under, Carry;
    OnlyTurn(g, s, P1, B, s', steps);
  }

  lemma AsideEnd()
    ensures var t := Carry(ASIDE_START, P0, F);
            P1 in t.owner && Indexed(t.mv) && Carry(t, P1, B).a == map[A := [P2], B := [P1], F := [P0]]
  {
    AsideMid();
    var s := Carry(ASIDE_START, P0, F);
    assert P1 in s.owner && s.owner[P1] == A;
    CarryShifts(s, P1, B);
    assert Without([P1, P2], P1) == [P2] && [] + [P1] == [P1];
    ThreeLists(s.a, P1, A, B, [P2], [P1]);
    hide Shift, Indexed, Carry;
    assert map[A := [P1, P2], B := [], F := [P0]][A := [P2]][B := [P1]] == map[A := [P2], B := [P1], F := [P0]];
  }

  lemma AsideLost(a: Assignment)
    requires a == map[A := [P2], B := [P1], F := [P0]]
    ensures Balanced(ASIDE, a) && forall m :: m in a + ASIDE_FIXED ==> P0 !in (a + ASIDE_FIXED)[m]
  {
    assert Level(a);
  }

  /** Whenever the loop is done and the member set aside is put back, the partition is with nobody. */
  lemma EndsLost(passes: nat, n: nat, end: Sheet, steps: seq<Step>)
    requires Looped(ASIDE, [P0, P1, P2], ASIDE_START, passes, true, n, end, steps)
    ensures Begins(ASIDE, [R, P0, P1, P2], ASIDE_HELD, ASIDE_FIXED, [P0, P1, P2], ASIDE_START)
    ensures ASIDE.consumersOf[P0] == [A, B] && forall m :: m in end.a + ASIDE_FIXED ==> P0 !in (end.a + ASIDE_FIXED)[m]
  {
    hide Turn, PassOf, Runs, Begins;
    AsideBegins();
    var g, s, list, moves := ASIDE, ASIDE_START, [P0, P1, P2], [Step(P0, A, F, 3, 0), Step(P1, A, B, 2, 0)];
    AsideEnd();
    var t := Carry(Carry(s, P0, F), P1, B);
    AsideLost(t.a);
    hide Carry, Balanced, Settles;
    assert list[..2] == [P0, P1];
    forall s', us | PassOf(g, s, list[..2], s', us) ensures s' == t && us == moves {
      var mid, first, last := PassOfTwo(g, s, P0, P1, s', us);
      AsideFirst(mid, first);
      AsideSecond(s', last);
    }
    SettlesThere(g, s, list, 2, t, moves);
    SettledLoop(g, s, list, 2, t, moves, passes, n, end, steps);
  }

  /** As before, but B is not new and holds a partition of topic 0. */
  const OLD: Group := Group(map[P0 := [A, B], P1 := [A, B], P2 := [A, B], P3 := [A, B], R := [F]],
                            map[A := [P0, P1, P2, P3], B := [P0, P1, P2, P3], F := [R]], map[P0 := F])

  const OLD_START: Sheet := Sheet(map[A := [P0, P1, P2], B := [P3]], map[P0 := A, P1 := A, P2 := A, P3 := B, R := F], NO_MOVES)

  const OLD_HELD: Assignment := map[A := [P0, P1, P2], B := [P3], F := [R]]

  lemma OldListed(m: Member, p: Partition)
    requires p in At(OLD_HELD, m)
    ensures Gives(OLD, OLD_START.owner, m, p)
  {
    assert m == A || m == B || m == F;
    assert p == P0 || p == P1 || p == P2 || p == P3 || p == R;
  }

  lemma OldCovers()
    ensures CoversBut(OLD, OLD_HELD, OLD_START.owner, [])
  {
    hide CoversBut;
    forall m, p | p in At(OLD_HELD, m) ensures Gives(OLD, OLD_START.owner, m, p) { OldListed(m, p); }
    assert OLD_HELD.Keys == OLD.partitionsOf.Keys;
    assert NoDup([P0, P1, P2]) && forall m :: m in OLD_HELD ==> NoDup(OLD_HELD[m]);
    forall p | p in OLD.consumersOf ensures Placed(OLD_HELD, OLD_START.owner, p) {
      assert p == P0 || p == P1 || p == P2 || p == P3 || p == R;
    }
    CoversFrom(OLD, OLD_HELD, OLD_START.owner);
  }

  lemma OldIsAside()
    ensures SetAside(OLD, OLD_HELD, ASIDE_FIXED, OLD_START.a)
  {
    assert !Fixed(OLD, OLD_HELD, A) && !Fixed(OLD, OLD_HELD, B) && Fixed(OLD, OLD_HELD, F);
    hide Fixed;
  }

  lemma OldBegins()
    ensures Begins(OLD, [R, P0, P1, P2, P3], OLD_HELD, ASIDE_FIXED, [P0, P1, P2, P3], OLD_START)
  {
    OldCovers();
    OldIsAside();
    hide CoversBut, SetAside;
    assert OLD_START.a + ASIDE_FIXED == OLD_HELD;
    assert Shared(OLD) == {P0, P1, P2, P3};
    AmongEvery([P0, P1, P2, P3], Shared(OLD));
    assert [R, P0, P1, P2, P3][1..] == [P0, P1, P2, P3];
  }

  lemma OldTurn(s': Sheet, steps: seq<Step>)
    requires Turn(OLD, OLD_START, P0, s', steps)
    ensures s' == Carry(OLD_START, P0, F) && steps == [Step(P0, A, F, 3, 0)]
  {
    var g, s := OLD, OLD_START;
    hide Carry, Turn, Balanced;
    CouldTake(g, s.a, B, P0, A);
    OnlyTurn(g, s, P0, F, s', steps);
  }

  lemma OldEnd()
    ensures Carry(OLD_START, P0, F).a == map[A := [P1, P2], B := [P3], F := [P0]] && Level(Carry(OLD_START, P0, F).a)
  {
    assert Without([P0, P1, P2], P0) == [P1, P2];
    var less := OLD_START.a[A := [P1, P2]];
    assert At(less, F) + [P0] == [P0];
    assert less[F := [P0]] == map[A := [P1, P2], B := [P3], F := [P0]];
  }

  lemma OldScores()
    ensures ScoreOf(OLD_START.a) == 2 && ScoreOf(map[A := [P1, P2], B := [P3], F := [P0]]) == 2
  {
    var a, b := OLD_START.a, map[A := [P1, P2], B := [P3], F := [P0]];
    ScoreOfTwo(a.Keys, LoadsOf(a), A, B);
    assert a.Keys - {A} - {B} == {};
    ScoreOfTwo(b.Keys, LoadsOf(b), A, B);
    assert b.Keys - {A} - {B} == {F};
    GapsFromAny(2, {F}, LoadsOf(b), F);
    GapsFromAny(1, {F}, LoadsOf(b), F);
    ScoreFromAny({F}, LoadsOf(b), F);
  }

  /** Whenever the loop is done, the condition of the revert branch holds: everybody held something,
      something moved, and the score is what it was. Reverting so, a partition ends with a member not
      subscribed to it and another one with nobody. */
  lemma EndsReverting(passes: nat, n: nat, end: Sheet, steps: seq<Step>)
    requires Looped(OLD, [P0, P1, P2, P3], OLD_START, passes, true, n, end, steps)
    ensures Begins(OLD, [R, P0, P1, P2, P3], OLD_HELD, ASIDE_FIXED, [P0, P1, P2, P3], OLD_START)
    ensures Reverts(Course(OLD, OLD_HELD, OLD_HELD, [P0, P1, P2, P3], OLD_START, n, end, steps))
    ensures F in end.a && P0 in end.a[F] && F !in OLD.consumersOf[P0]
    ensures OLD.consumersOf[R] == [F] && forall m :: m in end.a ==> R !in end.a[m]
  {
    hide Turn, PassOf, Runs, ScoreOf, Begins;
    OldBegins();
    var g, s, list, t, moves := OLD, OLD_START, [P0, P1, P2, P3], Carry(OLD_START, P0, F), [Step(P0, A, F, 3, 0)];
    OldEnd();
    OldScores();
    assert Balanced(g, t.a);
    hide Carry, Balanced, Settles;
    assert list[..1] == [P0];
    forall s', us | PassOf(g, s, list[..1], s', us) ensures s' == t && us == moves {
      PassOfOne(g, s, P0, s', us);
      OldTurn(s', us);
    }
    SettlesThere(g, s, list, 1, t, moves);
    SettledLoop(g, s, list, 1, t, moves, passes, n, end, steps);
  }
}
