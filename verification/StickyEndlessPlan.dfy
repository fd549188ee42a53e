/** Subscriptions and reports from which a sticky plan is never made. */
module StickyEndlessPlan {
  import opened StickyMovements
  import opened StickyModel
  import opened StickyTurns
  import opened StickyPlan
  import opened StickyPrepare
  import opened StickyBalance
  import opened StickyEndless

  const T1 := Topic(1)

  const TOPICS: map<Topic, seq<int>> := map[T0 := [0, 1, 2], T1 := [0, 1, 2], T2 := [0, 1, 2, 3, 4]]

  /** What a member is subscribed to and reports. */
  function Reporting(i: nat): Metadata
    requires i < 4
  {
    if i == 0 then Metadata([T0, T2], Versioned([LIST[4], LIST[5]], 1))
    else if i == 1 then Metadata([T1, T2], Versioned(ONLY_ONE + LIST[3..], 2))
    else if i == 2 then Metadata([T0], Versioned([LIST[1], LIST[2]], 2))
    else Metadata([T0, T2], Versioned([LIST[0], LIST[1], LIST[7]], 1))
  }

  const MEMBERS: map<Member, Metadata> :=
    map[Member(0) := Reporting(0), Member(1) := Reporting(1), Member(2) := Reporting(2), Member(3) := Reporting(3)]

  /** The partitions that only one member may have. */
  const ONLY_ONE: seq<Partition> := [Partition(T1, 0), Partition(T1, 1), Partition(T1, 2)]

  const SORTED: seq<Partition> := ONLY_ONE + LIST

  lemma Whose(p: Partition)
    ensures Known(TOPICS, p) <==> p in SORTED
    ensures p in ONLY_ONE ==> p.topic == T1
    ensures p in LIST ==> p.topic == T0 || p.topic == T2
  {
    if p.topic == T0 { assert p.number in TOPICS[T0] <==> 0 <= p.number < 3; }
    if p.topic == T1 { assert p.number in TOPICS[T1] <==> 0 <= p.number < 3; }
    if p.topic == T2 { assert p.number in TOPICS[T2] <==> 0 <= p.number < 5; }
    assert p in LIST <==> (p.topic == T0 && 0 <= p.number < 3) || (p.topic == T2 && 0 <= p.number < 5) by { InList(p); }
    assert p in ONLY_ONE <==> p.topic == T1 && 0 <= p.number < 3 by { InOnlyOne(p); }
  }

  lemma InList(p: Partition)
    ensures p in LIST <==> (p.topic == T0 && 0 <= p.number < 3) || (p.topic == T2 && 0 <= p.number < 5)
  {
    if p.topic == T0 && 0 <= p.number < 3 { assert LIST[p.number] == p; }
    if p.topic == T2 && 0 <= p.number < 5 { assert LIST[3 + p.number] == p; }
  }

  lemma InOnlyOne(p: Partition)
    ensures p in ONLY_ONE <==> p.topic == T1 && 0 <= p.number < 3
  {
    if p.topic == T1 && 0 <= p.number < 3 { assert ONLY_ONE[p.number] == p; }
  }

  lemma SubscribedIs(m: Member, t: Topic)
    ensures SubscribedTo(Subscriptions(MEMBERS), m, t) <==>
              m in MEMBERS && if t == T1 then m == Member(1) else m.rank >= 0 && May(m.rank, t)
  {
    if m in MEMBERS {
      assert m == Member(0) || m == Member(1) || m == Member(2) || m == Member(3);
    }
  }

  /** Member i reports p. */
  predicate Reported(i: int, p: Partition) {
    || (i == 0 && p.topic == T2 && 1 <= p.number < 3)
    || (i == 1 && ((p.topic == T1 && 0 <= p.number < 3) || (p.topic == T2 && 0 <= p.number < 5)))
    || (i == 2 && p.topic == T0 && 1 <= p.number < 3)
    || (i == 3 && ((p.topic == T0 && 0 <= p.number < 2) || (p.topic == T2 && p.number == 4)))
  }

  lemma ReportedIs(i: nat, p: Partition)
    requires i < 4
    ensures p in Reporting(i).userData.claims <==> Reported(i, p)
  {
    InOnlyOne(p);
    if p.topic == T2 && 0 <= p.number < 5 { assert LIST[3..][p.number] == p; }
    assert forall k :: 0 <= k < 5 ==> LIST[3..][k] == Partition(T2, k);
  }

  lemma ClaimsAre(m: Member, p: Partition)
    ensures Claims(Reports(MEMBERS), m, p) <==> Reported(m.rank, p)
    ensures Claims(Reports(MEMBERS), m, p) ==> GenerationOf(Reports(MEMBERS)[m]) == if m.rank == 1 || m.rank == 2 then 2 else 1
  {
    hide Reported;
    if m in MEMBERS {
      assert m == Member(0) || m == Member(1) || m == Member(2) || m == Member(3);
      ReportedIs(m.rank, p);
    } else {
      NotReported(m.rank, p);
    }
  }

  lemma NotReported(i: int, p: Partition)
    ensures Reported(i, p) ==> Member(i) in MEMBERS
  {
  }

  /** Who claims p last. */
  function Holder(p: Partition): nat {
    if p.topic == T0 then if p.number == 0 then 3 else 2 else 1
  }

  lemma LatestIs(m: Member, p: Partition)
    requires p in SORTED
    ensures Latest(Reports(MEMBERS), m, p) <==> m == Member(Holder(p))
  {
    hide Claims, GenerationOf;
    Whose(p);
    InList(p);
    InOnlyOne(p);
    ClaimsAre(m, p);
    ClaimsAre(Member(Holder(p)), p);
    forall n ensures Claims(Reports(MEMBERS), n, p) <==> Reported(n.rank, p)
      ensures Claims(Reports(MEMBERS), n, p) ==> GenerationOf(Reports(MEMBERS)[n]) == if n.rank == 1 || n.rank == 2 then 2 else 1
    {
      ClaimsAre(n, p);
    }
  }

  lemma DisputedAre(p: Partition)
    requires p in LIST
    ensures Disputed(Reports(MEMBERS), p) <==> p in PREVIOUS
  {
    hide Claims, GenerationOf;
    InList(p);
    forall n ensures Claims(Reports(MEMBERS), n, p) <==> Reported(n.rank, p)
      ensures Claims(Reports(MEMBERS), n, p) ==> GenerationOf(Reports(MEMBERS)[n]) == if n.rank == 1 || n.rank == 2 then 2 else 1
    {
      ClaimsAre(n, p);
    }
    if p in PREVIOUS {
      assert Claims(Reports(MEMBERS), PREVIOUS[p], p) && Claims(Reports(MEMBERS), Member(Holder(p)), p);
    }
  }

  lemma BeforeIs(m: Member, p: Partition)
    requires p in LIST && p in PREVIOUS && Before(Reports(MEMBERS), m, Member(Holder(p)), p)
    ensures m == PREVIOUS[p]
  {
    hide Claims, GenerationOf;
    InList(p);
    ClaimsAre(m, p);
    ClaimsAre(Member(Holder(p)), p);
  }

  lemma PreviousIs(current: Assignment, prev: Owners, p: Partition)
    requires Resolved(Reports(MEMBERS), current, prev) && p in LIST
    ensures p in prev <==> p in PREVIOUS
    ensures p in prev ==> prev[p] == PREVIOUS[p]
  {
    hide OnceEach, Latest, Before, Disputed, Claims, Holder;
    DisputedAre(p);
    assert p in SORTED;
    if p in prev {
      HoldsIt(current, prev, p);
      BeforeIs(prev[p], p);
    }
  }

  lemma HoldsIt(current: Assignment, prev: Owners, p: Partition)
    requires Resolved(Reports(MEMBERS), current, prev) && p in SORTED
    ensures p in At(current, Member(Holder(p))) && Claims(Reports(MEMBERS), Member(Holder(p)), p)
  {
    hide Resolved;
    forall m ensures Latest(Reports(MEMBERS), m, p) <==> m == Member(Holder(p)) {
      LatestIs(m, p);
    }
    HoldsLatest(Reports(MEMBERS), current, prev, Member(Holder(p)), p);
  }

  lemma ConsumersAre(g: Group, p: Partition, m: Member)
    requires Describes(g, Subscriptions(MEMBERS), TOPICS) && p in SORTED
    ensures p in g.consumersOf
    ensures p in LIST ==> (m in g.consumersOf[p] <==> m.rank >= 0 && May(m.rank, p.topic))
    ensures p in ONLY_ONE ==> (m in g.consumersOf[p] <==> m == Member(1))
  {
    hide SubscribedTo, Known, Clean;
    Whose(p);
    SubscribedIs(m, p.topic);
  }

  /** The partitions member i may have. */
  function Wanted(i: nat): seq<Partition> {
    if i == 1 then ONLY_ONE + LIST[3..] else if i == 2 then LIST[..3] else LIST
  }

  lemma WantedFit(i: nat)
    requires i < 4
    ensures NoDup(Wanted(i)) && |Wanted(i)| == Room(i)
  {
    assert forall k :: 0 <= k < 5 ==> LIST[3..][k] == Partition(T2, k);
    assert forall k :: 0 <= k < 3 ==> LIST[..3][k] == Partition(T0, k);
  }

  lemma WantedAre(i: nat, p: Partition)
    requires i < 4 && p in Wanted(i)
    ensures Known(TOPICS, p) && SubscribedTo(Subscriptions(MEMBERS), Member(i), p.topic)
  {
    hide Known, SubscribedTo;
    assert forall k :: 0 <= k < 5 ==> LIST[3..][k] == Partition(T2, k);
    assert forall k :: 0 <= k < 3 ==> LIST[..3][k] == Partition(T0, k);
    Whose(p);
    SubscribedIs(Member(i), p.topic);
  }

  lemma RoomIs(g: Group, i: nat)
    requires Describes(g, Subscriptions(MEMBERS), TOPICS) && i < 4
    ensures Member(i) in g.partitionsOf && |g.partitionsOf[Member(i)]| >= Room(i)
  {
    assert Member(i) in Subscriptions(MEMBERS);
    hide SubscribedTo, Known, Clean, Subscriptions, Wanted, NoDup;
    forall p | p in Wanted(i) ensures p in g.partitionsOf[Member(i)] { WantedAre(i, p); }
    WantedFit(i);
    DistinctFit(Wanted(i), g.partitionsOf[Member(i)]);
  }

  lemma PotentialIs(g: Group)
    requires Describes(g, Subscriptions(MEMBERS), TOPICS)
    ensures Potential(g)
  {
    hide Describes, Subscriptions, May;
    forall p, m | p in LIST ensures p in g.consumersOf && (m in g.consumersOf[p] <==> m.rank >= 0 && May(m.rank, p.topic)) {
      assert p in SORTED;
      ConsumersAre(g, p, m);
    }
    assert forall i: nat, t: Topic :: May(i, t) ==> i < 4 by { MayIsSmall(); }
  }

  lemma MayIsSmall()
    ensures forall i: nat, t: Topic :: May(i, t) ==> i < 4
  {
  }

  lemma SettingIs(g: Group, current: Assignment)
    requires Describes(g, Subscriptions(MEMBERS), TOPICS) && Resolved(Reports(MEMBERS), current, g.prev)
    ensures Setting(g)
  {
    hide Describes, Resolved, WellFormed, Potential, Subscriptions, Reports;
    DescribedIsWellFormed(g, Subscriptions(MEMBERS), TOPICS);
    PotentialIs(g);
    forall p | p in LIST ensures (p in g.prev <==> p in PREVIOUS) && (p in PREVIOUS ==> g.prev[p] == PREVIOUS[p]) {
      PreviousIs(current, g.prev, p);
    }
    forall i: nat | i < 4 ensures |At(g.partitionsOf, Member(i))| >= Room(i) { RoomIs(g, i); }
  }

  // ---------------------------------------------------------------------- how the loop begins

  lemma SharedAre(g: Group, p: Partition)
    requires Describes(g, Subscriptions(MEMBERS), TOPICS) && p in SORTED
    ensures p in Shared(g) <==> p in LIST
  {
    hide Describes;
    Whose(p);
    ConsumersAre(g, p, Member(0));
    forall m ensures p in LIST ==> (m in g.consumersOf[p] <==> m.rank >= 0 && May(m.rank, p.topic))
      ensures p in ONLY_ONE ==> (m in g.consumersOf[p] <==> m == Member(1))
    {
      ConsumersAre(g, p, m);
    }
    if p in LIST {
      assert Member(0) in g.consumersOf[p] && Member(3) in g.consumersOf[p];
    } else {
      OnceOnly(g, p);
    }
  }

  lemma OnceOnly(g: Group, p: Partition)
    requires Describes(g, Subscriptions(MEMBERS), TOPICS) && p in g.consumersOf && forall m :: m in g.consumersOf[p] ==> m == Member(1)
    ensures |g.consumersOf[p]| < 2
  {
    assert Clean(Subscriptions(MEMBERS), TOPICS) by { IsClean(); }
    hide Clean;
    if |g.consumersOf[p]| >= 2 { SomeOther(g.consumersOf[p], Member(1)); }
  }

  lemma SomeOther(s: seq<Member>, m: Member)
    requires NoDup(s) && |s| >= 2
    ensures exists n :: n in s && n != m
  {
    if s[0] == m { assert s[1] in s && s[1] != m; } else { assert s[0] in s; }
  }

  lemma IsClean()
    ensures Clean(Subscriptions(MEMBERS), TOPICS)
  {
    forall m | m in Subscriptions(MEMBERS) ensures NoDup(Subscriptions(MEMBERS)[m]) {
      assert m == Member(0) || m == Member(1) || m == Member(2) || m == Member(3);
    }
    forall t | t in TOPICS ensures NoDup(TOPICS[t]) {
      assert t == T0 || t == T1 || t == T2;
    }
  }

  lemma {:induction false} AmongSplit(a: seq<Partition>, b: seq<Partition>, some: set<Partition>)
    requires (forall p :: p in a ==> p !in some) && forall p :: p in b ==> p in some
    ensures Among(a + b, some) == b
  {
    if a == [] {
      assert a + b == b;
      AmongEvery(b, some);
    } else {
      assert (a + b)[1..] == a[1..] + b;
      AmongSplit(a[1..], b, some);
    }
  }

  lemma ListIs(g: Group)
    requires Describes(g, Subscriptions(MEMBERS), TOPICS)
    ensures Among(SORTED, Shared(g)) == LIST
  {
    hide Describes, Shared, Among;
    forall p | p in SORTED ensures p in Shared(g) <==> p in LIST { SharedAre(g, p); }
    forall p | p in ONLY_ONE ensures p in SORTED && p !in LIST { Whose(p); }
    AmongSplit(ONLY_ONE, LIST, Shared(g));
  }

  /** What each member has when the loop begins. */
  function Having(i: nat): seq<Partition> {
    if i == 1 then ONLY_ONE + LIST[3..] else if i == 2 then LIST[1..3] else if i == 3 then LIST[..1] else []
  }

  lemma HavingIs(i: nat, p: Partition)
    requires i < 4
    ensures p in Having(i) <==> p in SORTED && Holder(p) == i
    ensures NoDup(Having(i)) && |Having(i)| == FirstLoads(0)[i]
  {
    InList(p);
    InOnlyOne(p);
    if p.topic == T2 && 0 <= p.number < 5 { assert LIST[3..][p.number] == p; }
    if p.topic == T0 && 1 <= p.number < 3 { assert LIST[1..3][p.number - 1] == p; }
    if p.topic == T0 && p.number == 0 { assert LIST[..1][0] == p; }
    assert forall k :: 0 <= k < 5 ==> LIST[3..][k] == Partition(T2, k);
    assert forall k :: 0 <= k < 2 ==> LIST[1..3][k] == Partition(T0, k + 1);
  }

  ghost predicate Started(g: Group, current: Assignment, held: Assignment, fixed: Assignment, list: seq<Partition>, start: Sheet) {
    Prepared(MEMBERS, TOPICS, g, current, held) && Begins(g, SORTED, held, fixed, list, start)
  }

  lemma OwnerIs(g: Group, current: Assignment, held: Assignment, fixed: Assignment, list: seq<Partition>, start: Sheet, p: Partition)
    requires Started(g, current, held, fixed, list, start) && p in SORTED
    ensures p in start.owner && start.owner[p] == Member(Holder(p)) && p in At(start.a + fixed, Member(Holder(p)))
  {
    hide Describes, Resolved, SetAside, Among, Holder, Unlisted, NoDup, Placed;
    var m := Member(Holder(p));
    HoldsIt(current, g.prev, p);
    ConsumersAre(g, p, m);
    HolderSubscribed(p);
    assert p in At(held, m);
  }

  lemma HolderSubscribed(p: Partition)
    requires p in SORTED
    ensures SubscribedTo(Subscriptions(MEMBERS), Member(Holder(p)), p.topic)
  {
    InList(p);
    InOnlyOne(p);
    SubscribedIs(Member(Holder(p)), p.topic);
  }

  lemma ListedIs(g: Group, current: Assignment, held: Assignment, fixed: Assignment, list: seq<Partition>, start: Sheet, m: Member, p: Partition)
    requires Started(g, current, held, fixed, list, start) && m in start.a + fixed && p in (start.a + fixed)[m]
    ensures p in SORTED && start.owner[p] == m
  {
    hide Resolved, SetAside, Among, Known, SubscribedTo, NoDup, Placed, Unlisted, Clean, Subscriptions;
    Whose(p);
  }

  lemma MembersAre(g: Group, current: Assignment, held: Assignment, fixed: Assignment, list: seq<Partition>, start: Sheet)
    requires Started(g, current, held, fixed, list, start)
    ensures (start.a + fixed).Keys == MEMBERS.Keys && forall m :: m in start.a + fixed ==> NoDup((start.a + fixed)[m])
  {
    hide Resolved, SetAside, Among, Known, SubscribedTo, NoDup, Placed, Unlisted, Clean;
    assert Subscriptions(MEMBERS).Keys == MEMBERS.Keys;
  }

  lemma LoadIs(g: Group, current: Assignment, held: Assignment, fixed: Assignment, list: seq<Partition>, start: Sheet, i: nat)
    requires Started(g, current, held, fixed, list, start) && i < 4
    ensures var a := start.a + fixed; Member(i) in a && |a[Member(i)]| == FirstLoads(0)[i]
  {
    hide Started, Holder, Having, FirstLoads, NoDup;
    var a, m := start.a + fixed, Member(i);
    MembersAre(g, current, held, fixed, list, start);
    forall p | p in a[m] ensures p in Having(i) {
      ListedIs(g, current, held, fixed, list, start, m, p);
      OwnerIs(g, current, held, fixed, list, start, p);
      HavingIs(i, p);
    }
    forall p | p in Having(i) ensures p in a[m] {
      HavingIs(i, p);
      OwnerIs(g, current, held, fixed, list, start, p);
    }
    HavingIs(i, LIST[0]);
    DistinctFit(a[m], Having(i));
    DistinctFit(Having(i), a[m]);
  }

  lemma NotFixed(g: Group, current: Assignment, held: Assignment, fixed: Assignment, list: seq<Partition>, start: Sheet, i: nat)
    requires Started(g, current, held, fixed, list, start) && i < 4
    ensures !Fixed(g, start.a + fixed, Member(i))
  {
    hide Describes, Resolved, CoversBut, SetAside, Among;
    RoomIs(g, i);
    LoadIs(g, current, held, fixed, list, start, i);
    if i == 1 {
      assert LIST[3] in LIST && LIST[3] in SORTED;
      OwnerIs(g, current, held, fixed, list, start, LIST[3]);
      SharedAre(g, LIST[3]);
    }
  }

  lemma RankIs(m: Member)
    requires m in MEMBERS
    ensures 0 <= m.rank < 4 && m == Member(m.rank)
  {
  }

  lemma NobodyFixed(g: Group, current: Assignment, held: Assignment, fixed: Assignment, list: seq<Partition>, start: Sheet)
    requires Started(g, current, held, fixed, list, start)
    ensures fixed == map[] && start.a + fixed == start.a
  {
    hide Describes, Resolved, CoversBut, Among, Fixed, Prepared;
    MembersAre(g, current, held, fixed, list, start);
    forall m | m in start.a + fixed ensures !Fixed(g, start.a + fixed, m) {
      RankIs(m);
      NotFixed(g, current, held, fixed, list, start, m.rank);
    }
    assert fixed == map[];
  }

  lemma StartsAtWork(g: Group, current: Assignment, held: Assignment, fixed: Assignment, list: seq<Partition>, start: Sheet)
    requires Started(g, current, held, fixed, list, start)
    ensures list == LIST && Setting(g) && AtWork(g, list, start) && start.mv.records == map[]
  {
    hide Describes, Resolved, CoversBut, SetAside, Among, Setting, WellFormed, AtWork, Subscriptions, Known;
    ListIs(g);
    SettingIs(g, current);
    DescribedIsWellFormed(g, Subscriptions(MEMBERS), TOPICS);
    forall p ensures p in SORTED <==> p in g.consumersOf { SortedIs(g, p); }
    BeginsAtWork(g, SORTED, held, fixed, list, start);
  }

  lemma StartLooks(g: Group, current: Assignment, held: Assignment, fixed: Assignment, list: seq<Partition>, start: Sheet)
    requires Started(g, current, held, fixed, list, start)
    ensures list == LIST && Setting(g) && First(g, start, 0)
  {
    hide Started, Setting, AtWork;
    StartsAtWork(g, current, held, fixed, list, start);
    NobodyFixed(g, current, held, fixed, list, start);
    MembersAre(g, current, held, fixed, list, start);
    forall k | 0 <= k < 8 ensures LIST[k] in start.owner && start.owner[LIST[k]] == Member(FirstOwners(0)[k]) {
      assert LIST[k] in LIST && LIST[k] in SORTED;
      OwnerIs(g, current, held, fixed, list, start, LIST[k]);
    }
    forall i | 0 <= i < 4 ensures Member(i) in start.a && |start.a[Member(i)]| == FirstLoads(0)[i] {
      LoadIs(g, current, held, fixed, list, start, i);
    }
    forall m | m in start.a ensures 0 <= m.rank < 4 { RankIs(m); }
  }

  lemma SortedIs(g: Group, p: Partition)
    requires Describes(g, Subscriptions(MEMBERS), TOPICS)
    ensures p in SORTED <==> p in g.consumersOf
  {
    hide Known;
    Whose(p);
  }

  /** No number of passes makes a plan, although every previous owner is subscribed. */
  method NeverPlanned(passes: nat) returns (done: bool)
    ensures !done && forall p :: p in PREVIOUS ==> SubscribedTo(Subscriptions(MEMBERS), PREVIOUS[p], p.topic)
  {
    hide Prepared, Begins, Known, NoDup, Runs, PassOf, PrevStays, PlanPlaces, Alike, Lone, Indexed, Safe, First, Setting, Subscriptions;
    IsSortedOnce();
    forall p ensures p in SORTED <==> Known(TOPICS, p) { Whose(p); }
    PreviousStay();
    var plan, prev, reverted, fixed;
    ghost var c;
    plan, prev, done, reverted, fixed, c := Plan(MEMBERS, TOPICS, SORTED, passes);
    StartLooks(c.g, c.current, c.held, fixed, c.list, c.start);
    if done { EveryPassMoves(c.g, c.start, c.n, c.end, c.steps, c.end, []); }
  }

  lemma IsSortedOnce()
    ensures NoDup(SORTED)
  {
    assert forall k :: 0 <= k < 3 ==> SORTED[k] == Partition(T1, k);
    assert forall k :: 0 <= k < 8 ==> SORTED[3 + k] == LIST[k];
  }

  lemma PreviousStay()
    ensures forall p :: p in PREVIOUS ==> SubscribedTo(Subscriptions(MEMBERS), PREVIOUS[p], p.topic)
  {
    forall p | p in PREVIOUS ensures SubscribedTo(Subscriptions(MEMBERS), PREVIOUS[p], p.topic) {
      SubscribedIs(PREVIOUS[p], p.topic);
    }
  }
}
