/** A group for which the reassignment loop never ends, although every previous owner is subscribed:
    from the second pass on, each pass moves one partition to a less loaded member and then, to make
    another move unnecessary, moves it back. */
module StickyEndless {
  import opened StickyMovements
  import opened StickyModel
  import opened StickyTurns

  const T0 := Topic(0)
  const T2 := Topic(2)

  /** The partitions that several members may have, in the order of the loop. */
  const LIST: seq<Partition> :=
    [Partition(T0, 0), Partition(T0, 1), Partition(T0, 2),
     Partition(T2, 0), Partition(T2, 1), Partition(T2, 2), Partition(T2, 3), Partition(T2, 4)]

  const PREVIOUS: map<Partition, Member> :=
    map[Partition(T0, 1) := Member(3), Partition(T2, 1) := Member(0), Partition(T2, 2) := Member(0), Partition(T2, 4) := Member(3)]

  // -------------------------------------------------------------------------- how things look

  predicate May(i: nat, t: Topic) {
    (t == T0 && (i == 0 || i == 2 || i == 3)) || (t == T2 && (i == 0 || i == 1 || i == 3))
  }

  function Room(i: nat): nat {
    if i == 2 then 3 else 8
  }

  ghost predicate Potential(g: Group) {
    && (forall p :: p in LIST ==> p in g.consumersOf && forall i: nat :: Member(i) in g.consumersOf[p] <==> May(i, p.topic))
    && (forall p, m :: p in LIST && m in g.consumersOf[p] ==> 0 <= m.rank < 4)
  }

  ghost predicate Previously(g: Group) {
    && (forall p :: p in LIST ==> (p in g.prev <==> p in PREVIOUS))
    && (forall p :: p in LIST && p in PREVIOUS ==> g.prev[p] == PREVIOUS[p])
  }

  ghost predicate Setting(g: Group) {
    WellFormed(g) && Potential(g) && Previously(g) && forall i: nat :: i < 4 ==> |At(g.partitionsOf, Member(i))| >= Room(i)
  }

  /** Who owns the listed partitions, how many partitions each member has, and what has moved. */
  ghost predicate Looks(g: Group, s: Sheet, o: seq<nat>, l: seq<nat>, r: map<Partition, Pair>) {
    && AtWork(g, LIST, s) && Owned(s.owner, o)
    && Loaded(s.a, l) && s.mv.records == r
  }

  ghost predicate Owned(owner: Owners, o: seq<nat>) {
    |o| == 8 && forall k :: 0 <= k < 8 ==> o[k] < 4 && LIST[k] in owner && owner[LIST[k]] == Member(o[k])
  }

  ghost predicate Loaded(a: Assignment, l: seq<nat>) {
    && |l| == 4 && (forall m :: m in a ==> 0 <= m.rank < 4)
    && (forall i :: 0 <= i < 4 ==> Member(i) in a && |a[Member(i)]| == l[i])
  }

  /** Member i could take the partition at k from a member with two more, and has room for it. */
  ghost predicate Wants(o: seq<nat>, l: seq<nat>, i: nat, k: nat) {
    |o| == 8 && |l| == 4 && i < 4 && k < 8 && o[k] < 4 && May(i, LIST[k].topic) && l[i] < Room(i) && l[o[k]] >= l[i] + 2
  }

  lemma NotBalanced(g: Group, s: Sheet, o: seq<nat>, l: seq<nat>, r: map<Partition, Pair>, i: nat, k: nat)
    requires Setting(g) && Looks(g, s, o, l, r) && Wants(o, l, i, k)
    ensures !Balanced(g, s.a)
  {
    var m, p, n := Member(i), LIST[k], Member(o[k]);
    assert p in LIST && m in g.consumersOf[p];
    ReadyAtWork(g, LIST, s, p);
    SoundAtWork(g, LIST, s);
    hide AtWork, Balanced, ByTopic;
    CouldTake(g, s.a, m, p, n);
  }

  // ------------------------------------------------------------------------------ one turn

  ghost predicate Back(o: seq<nat>, l: seq<nat>, i: nat)
    requires |o| == 8 && |l| == 4 && i < 8 && o[i] < 4
  {
    LIST[i] in PREVIOUS && 0 <= PREVIOUS[LIST[i]].rank < 4 && l[o[i]] > l[PREVIOUS[LIST[i]].rank] + 1
  }

  lemma BackIs(g: Group, s: Sheet, o: seq<nat>, l: seq<nat>, r: map<Partition, Pair>, i: nat)
    requires Setting(g) && Looks(g, s, o, l, r) && i < 8
    ensures GoesBack(g, s, LIST[i]) <==> Back(o, l, i)
  {
    var p := LIST[i];
    assert p in LIST;
    hide AtWork, WellFormed;
    if p in PREVIOUS { assert PREVIOUS[p] == Member(0) || PREVIOUS[p] == Member(3); }
  }

  lemma Stays(g: Group, s: Sheet, o: seq<nat>, l: seq<nat>, r: map<Partition, Pair>, i: nat, s': Sheet, steps: seq<Step>)
    requires Setting(g) && Looks(g, s, o, l, r) && i < 8 && Turn(g, s, LIST[i], s', steps)
    requires !Back(o, l, i) && forall j: nat :: j < 4 && May(j, LIST[i].topic) ==> l[o[i]] <= l[j] + 1
    ensures s' == s && steps == []
  {
    BackIs(g, s, o, l, r, i);
    assert LIST[i] in LIST;
    hide AtWork, WellFormed, Balanced, Moving;
    forall m | m in g.consumersOf[LIST[i]] ensures |At(s.a, s.owner[LIST[i]])| <= |At(s.a, m)| + 1 {
      var j: nat := m.rank;
      assert m == Member(j);
    }
  }

  /** Member `to` is where the partition at i should go. */
  ghost predicate Goal(o: seq<nat>, l: seq<nat>, i: nat, to: nat)
    requires |o| == 8 && |l| == 4 && i < 8 && o[i] < 4 && to < 4
  {
    if Back(o, l, i) then PREVIOUS[LIST[i]] == Member(to)
    else May(to, LIST[i].topic) && l[o[i]] > l[to] + 1
         && forall j: nat :: j < 4 && May(j, LIST[i].topic) && j != to ==> l[to] < l[j] || (l[to] == l[j] && to < j)
  }

  lemma FirstIs(g: Group, a: Assignment, p: Partition, l: seq<nat>, to: nat, m: Member)
    requires Loaded(a, l) && FirstInLine(g, a, p, m) && to < 4 && Member(to) in g.consumersOf[p]
    requires forall j: nat :: j < 4 && Member(j) in g.consumersOf[p] && j != to ==> l[to] < l[j] || (l[to] == l[j] && to < j)
    ensures m == Member(to)
  {
    var j: nat := m.rank;
    assert m == Member(j);
    assert Member(to) in a;
    assert m == Member(to) || Earlier(a, m, Member(to));
  }

  lemma GoalIs(g: Group, s: Sheet, o: seq<nat>, l: seq<nat>, r: map<Partition, Pair>, i: nat, to: nat, m: Member)
    requires Setting(g) && Looks(g, s, o, l, r) && i < 8 && to < 4 && Goal(o, l, i, to) && Aims(g, s, LIST[i], m)
    ensures m == Member(to)
  {
    BackIs(g, s, o, l, r, i);
    assert LIST[i] in LIST;
    hide AtWork, WellFormed, Rests, Loaded, FirstInLine;
    if !Back(o, l, i) { FirstIs(g, s.a, LIST[i], l, to, m); }
  }

  lemma GoalMoves(g: Group, s: Sheet, o: seq<nat>, l: seq<nat>, r: map<Partition, Pair>, i: nat, to: nat, j: nat, k: nat)
    requires Setting(g) && Looks(g, s, o, l, r) && i < 8 && to < 4 && Goal(o, l, i, to) && Wants(o, l, j, k)
    ensures !Rests(g, s, LIST[i])
  {
    NotBalanced(g, s, o, l, r, j, k);
    BackIs(g, s, o, l, r, i);
    assert LIST[i] in LIST;
    hide AtWork, WellFormed, Balanced;
    assert May(to, LIST[i].topic) ==> Member(to) in g.consumersOf[LIST[i]];
  }

  /** The partition at q is the one to move when the one at i should go to `to`. */
  ghost predicate Chosen(o: seq<nat>, r: map<Partition, Pair>, i: nat, to: nat, q: nat)
    requires |o| == 8 && i < 8 && q < 8
  {
    var back := Pair(Member(to), if LIST[i] in r then r[LIST[i]].src else Member(o[i]));
    && (q == i <==> forall x :: x in r && x.topic == LIST[i].topic ==> r[x] != back)
    && (forall x :: x in r && x.topic == LIST[i].topic && r[x] == back ==> x == LIST[q])
  }

  lemma ChosenIs(mv: Moves, o: seq<nat>, r: map<Partition, Pair>, i: nat, to: nat, q: nat, x: Partition)
    requires Indexed(mv) && mv.records == r && |o| == 8 && i < 8 && q < 8 && Chosen(o, r, i, to, q)
    requires MayMove(mv, LIST[i], Member(o[i]), Member(to), x)
    ensures x == LIST[q]
  {
    UnderIsRecorded(mv, LIST[i].topic, ReversePair(mv, LIST[i], Member(o[i]), Member(to)));
    hide Indexed, Under;
  }

  function Recorded(r: map<Partition, Pair>, p: Partition, from: Member, to: Member): map<Partition, Pair> {
    if p !in r then r[p := Pair(from, to)] else if r[p].src == to then r - {p} else r[p := Pair(r[p].src, to)]
  }

  lemma Goes(g: Group, s: Sheet, o: seq<nat>, l: seq<nat>, r: map<Partition, Pair>, i: nat, to: nat, q: nat, j: nat, k: nat, s': Sheet, steps: seq<Step>)
    requires Setting(g) && Looks(g, s, o, l, r) && i < 8 && Turn(g, s, LIST[i], s', steps)
    requires to < 4 && q < 8 && Goal(o, l, i, to) && Chosen(o, r, i, to, q) && Wants(o, l, j, k)
    ensures steps != [] && l[o[q]] > 0 && o[q] != to
    ensures Looks(g, s', o[q := to], l[o[q] := l[o[q]] - 1][to := l[to] + 1], Recorded(r, LIST[q], Member(o[q]), Member(to)))
  {
    hide Setting, Goal, Rests, AtWork, Aims, MayMove, Indexed, Carry, Wants, Chosen;
    GoalMoves(g, s, o, l, r, i, to, j, k);
    var m, x :| Moving(g, s, LIST[i], m, x) && s' == Carry(s, x, m) && steps == [StepOf(s, x, m)];
    GoalIs(g, s, o, l, r, i, to, m);
    ChosenIs(s.mv, o, r, i, to, q, x);
    assert WellFormed(g) by { InSetting(g); }
    assert LIST[i] in LIST;
    MovingKeeps(g, LIST, s, LIST[i], m, x);
    Moved(g, s, o, l, r, to, q);
  }

  lemma InSetting(g: Group)
    requires Setting(g)
    ensures WellFormed(g)
  {
  }

  lemma Reloaded(g: Group, a: Assignment, owner: Owners, p: Partition, l: seq<nat>, from: nat, to: nat)
    requires Sound(g, a, owner) && Loaded(a, l) && Placed(a, owner, p) && owner[p] == Member(from) && from < 4 && to < 4 && from != to
    ensures l[from] > 0 && Loaded(Shift(a, p, Member(from), Member(to)), l[from := l[from] - 1][to := l[to] + 1])
  {
    ShiftLists(a, p, Member(from), Member(to), owner, g);
    hide Shift, Sound;
  }

  lemma Reowned(owner: Owners, o: seq<nat>, q: nat, to: nat)
    requires Owned(owner, o) && q < 8 && to < 4
    ensures Owned(owner[LIST[q] := Member(to)], o[q := to])
  {
    Different(q);
  }

  lemma Moved(g: Group, s: Sheet, o: seq<nat>, l: seq<nat>, r: map<Partition, Pair>, to: nat, q: nat)
    requires Looks(g, s, o, l, r) && q < 8 && to < 4 && s.owner[LIST[q]] != Member(to) && Placed(s.a, s.owner, LIST[q])
    requires Indexed(s.mv) && AtWork(g, LIST, Carry(s, LIST[q], Member(to)))
    ensures l[o[q]] > 0 && o[q] != to
    ensures Looks(g, Carry(s, LIST[q], Member(to)), o[q := to], l[o[q] := l[o[q]] - 1][to := l[to] + 1], Recorded(r, LIST[q], Member(o[q]), Member(to)))
  {
    SoundAtWork(g, LIST, s);
    assert s.owner[LIST[q]] == Member(o[q]) && o[q] < 4;
    hide AtWork, Shift, Indexed, MoveRecord, Sound, Loaded, Placed, Owned;
    Reloaded(g, s.a, s.owner, LIST[q], l, o[q], to);
    Reowned(s.owner, o, q, to);
    MovedRecords(s.mv, LIST[q], Member(o[q]), Member(to));
  }

  lemma Different(q: nat)
    requires q < 8
    ensures forall k :: 0 <= k < 8 && k != q ==> LIST[k] != LIST[q]
  {
  }

  // ---------------------------------------------------------------------------- the first pass

  function FirstOwners(i: nat): seq<nat> {
    if i < 2 then [3, 2, 2, 1, 1, 1, 1, 1]
    else if i < 4 then [3, 0, 2, 1, 1, 1, 1, 1]
    else if i == 4 then [3, 0, 2, 0, 1, 1, 1, 1]
    else if i == 5 then [3, 0, 2, 0, 0, 1, 1, 1]
    else if i == 6 then [3, 0, 2, 0, 0, 0, 1, 1]
    else if i == 7 then [3, 0, 2, 0, 0, 0, 3, 1]
    else [3, 0, 2, 0, 0, 0, 3, 3]
  }

  function FirstLoads(i: nat): seq<nat> {
    if i < 2 then [0, 8, 2, 1]
    else if i < 4 then [1, 8, 1, 1]
    else if i == 4 then [2, 7, 1, 1]
    else if i == 5 then [3, 6, 1, 1]
    else if i == 6 then [4, 5, 1, 1]
    else if i == 7 then [4, 4, 1, 2]
    else [4, 3, 1, 3]
  }

  function FirstRecords(i: nat): map<Partition, Pair> {
    if i < 2 then map[]
    else if i < 4 then map[LIST[1] := Pair(Member(2), Member(0))]
    else if i == 4 then
      map[LIST[1] := Pair(Member(2), Member(0)), LIST[3] := Pair(Member(1), Member(0))]
    else if i == 5 then
      map[LIST[1] := Pair(Member(2), Member(0)), LIST[3] := Pair(Member(1), Member(0)), LIST[4] := Pair(Member(1), Member(0))]
    else if i == 6 then
      map[LIST[1] := Pair(Member(2), Member(0)), LIST[3] := Pair(Member(1), Member(0)), LIST[4] := Pair(Member(1), Member(0)),
          LIST[5] := Pair(Member(1), Member(0))]
    else if i == 7 then
      map[LIST[1] := Pair(Member(2), Member(0)), LIST[3] := Pair(Member(1), Member(0)), LIST[4] := Pair(Member(1), Member(0)),
          LIST[5] := Pair(Member(1), Member(0)), LIST[6] := Pair(Member(1), Member(3))]
    else
      map[LIST[1] := Pair(Member(2), Member(0)), LIST[3] := Pair(Member(1), Member(0)), LIST[4] := Pair(Member(1), Member(0)),
          LIST[5] := Pair(Member(1), Member(0)), LIST[6] := Pair(Member(1), Member(3)), LIST[7] := Pair(Member(1), Member(3))]
  }

  /** How things look after the first i turns of the first pass. */
  ghost predicate First(g: Group, s: Sheet, i: nat) {
    Looks(g, s, FirstOwners(i), FirstLoads(i), FirstRecords(i))
  }

  /** In the first pass the turn of i, but for two of them, takes it to `to`. */
  lemma FirstNext(i: nat, to: nat)
    requires i == 1 || 3 <= i < 8
    requires to == if i < 6 then 0 else 3
    ensures var o, l, r := FirstOwners(i), FirstLoads(i), FirstRecords(i);
            && o[i] < 4 && l[o[i]] > 0 && FirstOwners(i + 1) == o[i := to]
            && FirstLoads(i + 1) == l[o[i] := l[o[i]] - 1][to := l[to] + 1]
            && FirstRecords(i + 1) == Recorded(r, LIST[i], Member(o[i]), Member(to))
  {
  }

  lemma FirstGoal(i: nat, to: nat)
    requires i == 1 || 3 <= i < 8
    requires to == if i < 6 then 0 else 3
    ensures var o, l, r := FirstOwners(i), FirstLoads(i), FirstRecords(i);
            o[i] < 4 && Goal(o, l, i, to) && Chosen(o, r, i, to, i) && Wants(o, l, to, if i == 1 then 3 else i)
  {
  }

  lemma FirstTurn(g: Group, s: Sheet, i: nat, s': Sheet, steps: seq<Step>)
    requires Setting(g) && i < 8 && First(g, s, i) && Turn(g, s, LIST[i], s', steps)
    ensures First(g, s', i + 1) && (i == 1 ==> steps != [])
  {
    hide Setting, Looks, Turn, Recorded, Goal, Chosen, Wants;
    var o, l, r := FirstOwners(i), FirstLoads(i), FirstRecords(i);
    if i == 0 || i == 2 {
      Stays(g, s, o, l, r, i, s', steps);
    } else {
      var to := if i < 6 then 0 else 3;
      FirstNext(i, to);
      FirstGoal(i, to);
      Goes(g, s, o, l, r, i, to, i, to, if i == 1 then 3 else i, s', steps);
    }
  }

  lemma {:induction false} FirstTurns(g: Group, s: Sheet, i: nat, s': Sheet, steps: seq<Step>)
    requires Setting(g) && First(g, s, 0) && i <= 8 && PassOf(g, s, LIST[..i], s', steps)
    ensures First(g, s', i) && (i >= 2 ==> steps != [])
    decreases i
  {
    hide Setting, First, Turn;
    if i > 0 {
      assert Front(LIST[..i]) == LIST[..i - 1] && StickyTurns.Back(LIST[..i]) == LIST[i - 1];
      var mid, first, last :| PassOf(g, s, LIST[..i - 1], mid, first) && Turn(g, mid, LIST[i - 1], s', last) && steps == first + last;
      FirstTurns(g, s, i - 1, mid, first);
      FirstTurn(g, mid, i - 1, s', last);
    }
  }

  // ------------------------------------------------------------------------- all later passes

  /** How things look after the first i turns of any later pass: as after the first pass, but for the
      one turn during which the first partition is away. */
  ghost predicate Later(g: Group, s: Sheet, i: nat) {
    if i == 1 then
      Looks(g, s, FirstOwners(8)[0 := 2], [4, 3, 2, 2], FirstRecords(8)[LIST[0] := Pair(Member(3), Member(2))])
    else First(g, s, 8)
  }

  /** The first partition goes from member 3 to member 2 and back. */
  lemma ThereAndBack()
    ensures var o, l, r := FirstOwners(8), FirstLoads(8), FirstRecords(8);
            && l[o[0] := l[o[0]] - 1][2 := l[2] + 1] == [4, 3, 2, 2] && [4, 3, 2, 2][2 := 1][3 := 3] == l
            && o[0 := 2][0 := 3] == o
            && var away := r[LIST[0] := Pair(Member(3), Member(2))];
               && Recorded(r, LIST[0], Member(3), Member(2)) == away && Recorded(away, LIST[0], Member(2), Member(3)) == r
               && Goal(o, l, 0, 2) && Chosen(o, r, 0, 2, 0) && Wants(o, l, 2, 1)
               && Goal(o[0 := 2], [4, 3, 2, 2], 1, 3) && Chosen(o[0 := 2], away, 1, 3, 0) && Wants(o[0 := 2], [4, 3, 2, 2], 2, 1)
  {
  }

  lemma LaterTurn(g: Group, s: Sheet, i: nat, s': Sheet, steps: seq<Step>)
    requires Setting(g) && i < 8 && Later(g, s, i) && Turn(g, s, LIST[i], s', steps)
    ensures Later(g, s', i + 1) && (i == 0 ==> steps != [])
  {
    hide Setting, Looks, Turn, Recorded, Goal, Chosen, Wants, Back;
    var o, l, r := FirstOwners(8), FirstLoads(8), FirstRecords(8);
    ThereAndBack();
    if i == 0 {
      Goes(g, s, o, l, r, 0, 2, 0, 2, 1, s', steps);
    } else if i == 1 {
      Goes(g, s, o[0 := 2], [4, 3, 2, 2], r[LIST[0] := Pair(Member(3), Member(2))], 1, 3, 0, 2, 1, s', steps);
    } else {
      NobodyMoves(i);
      Stays(g, s, o, l, r, i, s', steps);
    }
  }

  lemma NobodyMoves(i: nat)
    requires 2 <= i < 8
    ensures var o, l := FirstOwners(8), FirstLoads(8);
            !Back(o, l, i) && forall j: nat :: j < 4 && May(j, LIST[i].topic) ==> l[o[i]] <= l[j] + 1
  {
  }

  lemma {:induction false} LaterTurns(g: Group, s: Sheet, i: nat, s': Sheet, steps: seq<Step>)
    requires Setting(g) && Later(g, s, 0) && i <= 8 && PassOf(g, s, LIST[..i], s', steps)
    ensures Later(g, s', i) && (i > 0 ==> steps != [])
    decreases i
  {
    hide Setting, Later, Turn;
    if i > 0 {
      assert Front(LIST[..i]) == LIST[..i - 1] && StickyTurns.Back(LIST[..i]) == LIST[i - 1];
      var mid, first, last :| PassOf(g, s, LIST[..i - 1], mid, first) && Turn(g, mid, LIST[i - 1], s', last) && steps == first + last;
      LaterTurns(g, s, i - 1, mid, first);
      LaterTurn(g, mid, i - 1, s', last);
    }
  }

  lemma {:induction false} LaterPasses(g: Group, s: Sheet, n: nat, s': Sheet, steps: seq<Step>)
    requires Setting(g) && First(g, s, 0) && n > 0 && Runs(g, LIST, s, n, s', steps)
    ensures Later(g, s', 0)
    decreases n
  {
    hide Setting, PassOf, Looks;
    var mid, first, last :| Runs(g, LIST, s, n - 1, mid, first) && PassOf(g, mid, LIST, s', last) && last != [] && steps == first + last;
    assert LIST[..8] == LIST;
    if n == 1 {
      FirstTurns(g, s, 8, s', last);
    } else {
      LaterPasses(g, s, n - 1, mid, first);
      LaterTurns(g, mid, 8, s', last);
    }
  }

  /** However many passes have been made, the next one makes a move. */
  lemma EveryPassMoves(g: Group, s: Sheet, n: nat, s': Sheet, steps: seq<Step>, s'': Sheet, last: seq<Step>)
    requires Setting(g) && First(g, s, 0) && Runs(g, LIST, s, n, s', steps) && PassOf(g, s', LIST, s'', last)
    ensures last != []
  {
    hide Setting, PassOf, Looks;
    assert LIST[..8] == LIST;
    if n == 0 {
      FirstTurns(g, s, 8, s'', last);
    } else {
      LaterPasses(g, s, n, s', steps);
      LaterTurns(g, s', 8, s'', last);
    }
  }
}
