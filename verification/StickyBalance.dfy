/** The whole of a sticky plan, from subscriptions and earlier assignments to the new one. */
module StickyBalance {
  import opened StickyMovements
  import opened StickyScore
  import opened StickyModel
  import opened StickyWork
  import opened StickyTurns
  import opened StickyUniform
  import opened StickyAssignors
  import opened StickyPlan
  import opened StickyPrepare

  /** How the reassignment loop begins: every partition that anybody may have is placed, what members
      held they still hold, the members that cannot take part are set aside, nothing has moved. */
  ghost predicate Begins(g: Group, sorted: seq<Partition>, held: Assignment, fixed: Assignment, list: seq<Partition>, start: Sheet) {
    && CoversBut(g, start.a + fixed, start.owner, []) && SetAside(g, start.a + fixed, fixed, start.a)
    && (forall m, p :: p in At(held, m) ==> p in At(start.a + fixed, m))
    && list == Among(sorted, Shared(g)) && start.mv == NO_MOVES
  }

  /** A run of the loop: `n` passes make the moves `steps`, and one more makes none if it is done. */
  ghost predicate Looped(g: Group, list: seq<Partition>, start: Sheet, passes: nat, done: bool, n: nat, end: Sheet, steps: seq<Step>) {
    Runs(g, list, start, n, end, steps) && if done then PassOf(g, end, list, end, []) else n == passes
  }

  /** Balances what the assignor holds. `passes` bounds the passes of the reassignment loop and `done`
      tells that it ended by itself; the loop took `start` to `end`. The revert branch of the source
      rebinds local maps only: its caller keeps the moved assignment, and the members set aside are then
      missing from it. */
  method Balance(s: StickyAssignor, g: Group, sorted: seq<Partition>, unassigned: seq<Partition>, order: seq<Member>, passes: nat)
    returns (done: bool, reverted: bool, fixed: Assignment, ghost list: seq<Partition>, ghost start: Sheet, ghost n: nat, ghost end: Sheet)
    requires WellFormed(g) && s.movements.Abs() == NO_MOVES && IsSorted(order, s.currentAssignment)
    requires CoversBut(g, s.currentAssignment, s.currentPartitionConsumer, unassigned)
    requires NoDup(sorted) && forall p :: p in sorted <==> p in g.consumersOf
    modifies s`currentAssignment, s`currentPartitionConsumer, s`history, s.movements
    ensures Begins(g, sorted, old(s.currentAssignment), fixed, list, start)
    ensures old(s.history) <= s.history && Looped(g, list, start, passes, done, n, end, s.history[|old(s.history)|..])
    ensures reverted <==> done && order != [] && old(At(s.currentAssignment, order[0])) != []
                          && s.history != old(s.history) && ScoreOf(end.a) >= ScoreOf(start.a)
    ensures s.Now() == if done && !reverted then end.(a := end.a + fixed) else end
  {
    hide CoversBut, IsSorted, WellFormed, NoDup, SetAside, Work, Runs, PassOf, ScoreOf, Among;
    var initializing := |order| == 0 || |At(s.currentAssignment, order[0])| == 0;
    ghost var held := s.currentAssignment;
    var order' := AssignUnassigned(s, g, unassigned, order);
    ghost var a, owner := s.currentAssignment, s.currentPartitionConsumer;
    var shared := Reassignable(g, sorted);
    list := shared;
    var rest;
    CoveredIsKnown(g, a, owner);
    fixed, rest := SplitFixed(g, s.currentAssignment);
    RestIsReady(g, a, owner, fixed, rest, list);
    TwoParts(g, a, fixed, rest);
    s.currentAssignment := rest;
    start := s.Now();
    order' := SortMemberIDsByPartitionAssignments(rest);
    var before := GetBalanceScore(rest);
    var performed;
    performed, done, n := s.PerformReassignments(g, shared, order', passes);
    reverted := false;
    end := s.Now();
    if !done { return; }
    var after := GetBalanceScore(s.currentAssignment);
    ScoreIs(rest);
    ScoreIs(s.currentAssignment);
    if !initializing && performed && after >= before { reverted := true; return; }
    s.currentAssignment := s.currentAssignment + fixed;
  }

  lemma ScoreIs(a: Assignment)
    ensures ScoreOf(a) == Score(a.Keys, LoadsOf(a))
  {
  }

  lemma TwoParts(g: Group, a: Assignment, fixed: Assignment, rest: Assignment)
    requires SetAside(g, a, fixed, rest)
    ensures rest + fixed == a
  {
    hide Fixed;
    assert (rest + fixed).Keys == a.Keys;
  }

  lemma CoveredIsKnown(g: Group, a: Assignment, owner: Owners)
    requires CoversBut(g, a, owner, [])
    ensures a.Keys == g.partitionsOf.Keys && forall m, p :: m in a && p in a[m] ==> p in g.consumersOf
  {
    hide Placed;
  }

  // -------------------------------------------------------------------- what the loop leads to

  lemma ListIsShared(g: Group, sorted: seq<Partition>, list: seq<Partition>)
    requires (forall p :: p in sorted <==> p in g.consumersOf) && list == Among(sorted, Shared(g))
    ensures forall p :: p in list <==> p in g.consumersOf && |g.consumersOf[p]| >= 2
  {
    AmongHas(sorted, Shared(g));
    hide Among;
  }

  lemma BeginsAtWork(g: Group, sorted: seq<Partition>, held: Assignment, fixed: Assignment, list: seq<Partition>, start: Sheet)
    requires WellFormed(g) && (forall p :: p in sorted <==> p in g.consumersOf) && Begins(g, sorted, held, fixed, list, start)
    ensures AtWork(g, list, start)
  {
    hide WellFormed, CoversBut, SetAside, Among, Work;
    ListIsShared(g, sorted, list);
    RestIsReady(g, start.a + fixed, start.owner, fixed, start.a, list);
  }

  /** Movement safety and index agreement hold when the loop stops, however it stops. */
  lemma LoopIsSafe(g: Group, sorted: seq<Partition>, held: Assignment, fixed: Assignment, list: seq<Partition>, start: Sheet,
                   n: nat, end: Sheet, steps: seq<Step>)
    requires WellFormed(g) && (forall p :: p in sorted <==> p in g.consumersOf) && Begins(g, sorted, held, fixed, list, start)
    requires Runs(g, list, start, n, end, steps)
    ensures Indexed(end.mv) && Safe(end.mv, end.owner)
  {
    BeginsAtWork(g, sorted, held, fixed, list, start);
    hide WellFormed, Begins, Runs, Indexed, Safe, KeepsPlaces;
    RunKeeps(g, list, start, n, end, steps);
  }

  lemma AfterLoop(g: Group, sorted: seq<Partition>, held: Assignment, fixed: Assignment, list: seq<Partition>, start: Sheet,
                  n: nat, end: Sheet, steps: seq<Step>)
    requires WellFormed(g) && (forall p :: p in sorted <==> p in g.consumersOf) && Begins(g, sorted, held, fixed, list, start)
    requires Runs(g, list, start, n, end, steps) && PrevSubscribed(g)
    ensures Reassigned(g, start.a + fixed, start.owner, fixed, start.a, list, end.a, end.owner)
  {
    hide WellFormed, CoversBut, SetAside, Among, Runs, KeepsPlaces, ScoreOf, Indexed, Safe, PrevSubscribed, Sound, Subscribed, AllReady;
    BeginsAtWork(g, sorted, held, fixed, list, start);
    ListIsShared(g, sorted, list);
    RunKeeps(g, list, start, n, end, steps);
  }

  /** With previous owners subscribed the outcome covers once the members set aside are put back; left
      out, as the revert branch leaves them, it covers exactly when they hold nothing. */
  lemma LoopCovers(g: Group, sorted: seq<Partition>, held: Assignment, fixed: Assignment, list: seq<Partition>, start: Sheet,
                   n: nat, end: Sheet, steps: seq<Step>)
    requires WellFormed(g) && (forall p :: p in sorted <==> p in g.consumersOf) && Begins(g, sorted, held, fixed, list, start)
    requires Runs(g, list, start, n, end, steps) && PrevSubscribed(g)
    ensures Covers(g, end.a + fixed, end.owner) && (end.a + fixed).Keys == g.partitionsOf.Keys && end.a.Keys == g.partitionsOf.Keys - fixed.Keys
    ensures Covers(g, end.a, end.owner) <==> forall m :: m in fixed ==> fixed[m] == []
  {
    AfterLoop(g, sorted, held, fixed, list, start, n, end, steps);
    PutBackCovers(g, start.a + fixed, start.owner, fixed, start.a, list, end.a, end.owner);
    NotPutBackCovers(g, start.a + fixed, start.owner, fixed, start.a, list, end.a, end.owner);
    MembersLeft(g, start.a + fixed, start.owner, fixed, start.a, list, end.a, end.owner);
  }

  lemma MembersLeft(g: Group, a: Assignment, owner: Owners, fixed: Assignment, rest: Assignment,
                    list: seq<Partition>, now: Assignment, owner': Owners)
    requires Reassigned(g, a, owner, fixed, rest, list, now, owner')
    ensures a.Keys == g.partitionsOf.Keys && now.Keys == a.Keys - fixed.Keys
  {
    hide Fixed, KeepsPlaces, Sound, Subscribed;
  }

  /** When all members may have all shared partitions, and none of these has a previous owner, or when
      no topic has two shared partitions and previous owners are subscribed, the loop ends within half
      the score it begins with, and lowers the score if it moves anything. */
  lemma LoopEnds(g: Group, sorted: seq<Partition>, held: Assignment, fixed: Assignment, list: seq<Partition>, start: Sheet,
                 n: nat, end: Sheet, steps: seq<Step>)
    requires WellFormed(g) && (forall p :: p in sorted <==> p in g.consumersOf) && Begins(g, sorted, held, fixed, list, start)
    requires Runs(g, list, start, n, end, steps) && (Uniform(g) || Sparse(g))
    ensures 2 * n <= ScoreOf(start.a) && (steps != [] ==> ScoreOf(end.a) < ScoreOf(start.a))
  {
    hide WellFormed, CoversBut, Among, AtWork, Uniform, Sparse, Runs, ScoreOf, Fixed;
    BeginsAtWork(g, sorted, held, fixed, list, start);
    CoveredIsKnown(g, start.a + fixed, start.owner);
    assert start.a.Keys <= g.partitionsOf.Keys;
    if Sparse(g) { SparseEnds(g, list, start, n, end, steps); } else { UniformEnds(g, list, start, n, end, steps); }
  }

  // ----------------------------------------------------------------------- a plan from scratch

  datatype Metadata = Metadata(topics: seq<Topic>, userData: UserData)

  function Subscriptions(members: map<Member, Metadata>): map<Member, seq<Topic>> {
    map m | m in members :: members[m].topics
  }

  function Reports(members: map<Member, Metadata>): map<Member, UserData> {
    map m | m in members :: members[m].userData
  }

  /** Every partition of the given topics that some member is subscribed to is given to exactly one
      member, which is subscribed to its topic; nothing else is given to anybody. */
  ghost predicate PlanPlaces(subs: map<Member, seq<Topic>>, topics: map<Topic, seq<int>>, plan: Assignment) {
    && OnceEach(plan)
    && (forall m, p :: m in plan && p in plan[m] ==> Known(topics, p) && SubscribedTo(subs, m, p.topic))
    && (forall p, n :: Known(topics, p) && SubscribedTo(subs, n, p.topic) ==> exists m :: m in plan && p in plan[m])
  }

  /** That, and every member has an entry. */
  ghost predicate PlanCovers(subs: map<Member, seq<Topic>>, topics: map<Topic, seq<int>>, plan: Assignment) {
    plan.Keys == subs.Keys && PlanPlaces(subs, topics, plan)
  }

  lemma CoversIsPlan(g: Group, subs: map<Member, seq<Topic>>, topics: map<Topic, seq<int>>, plan: Assignment, owner: Owners)
    requires Describes(g, subs, topics) && Sound(g, plan, owner)
    ensures Covers(g, plan, owner) <==> PlanPlaces(subs, topics, plan)
  {
    hide NoDup, Known, SubscribedTo;
    forall m, n, p | m in plan && n in plan && p in plan[m] && p in plan[n] ensures m == n {
      assert owner[p] == m && owner[p] == n;
    }
    if Covers(g, plan, owner) {
      forall p, n | Known(topics, p) && SubscribedTo(subs, n, p.topic) ensures exists m :: m in plan && p in plan[m] {
        assert n in g.consumersOf[p];
        assert Placed(plan, owner, p);
      }
    }
    if PlanPlaces(subs, topics, plan) {
      forall p | p in g.consumersOf && g.consumersOf[p] != [] ensures Placed(plan, owner, p) {
        var n := g.consumersOf[p][0];
        assert n in g.consumersOf[p] && SubscribedTo(subs, n, p.topic);
        var m :| m in plan && p in plan[m];
      }
    }
  }

  /** Members that reported nothing hold nothing. */
  lemma WithEveryMember(data: map<Member, UserData>, current: Assignment, prev: Owners)
    requires Resolved(data, current, prev)
    ensures var all := map m | m in data :: At(current, m);
            all.Keys == data.Keys && OnceEach(all)
  {
    hide Latest, Before;
  }

  /** Members whose reported assignments are the latest are the ones that hold something. */
  lemma HoldsLatest(data: map<Member, UserData>, current: Assignment, prev: Owners, m: Member, p: Partition)
    requires Resolved(data, current, prev) && Latest(data, m, p) && forall n :: Latest(data, n, p) ==> n == m
    ensures p in At(current, m)
  {
    var n :| n in current && p in current[n];
  }

  /** Previous owners are still subscribed. */
  ghost predicate PrevStays(subs: map<Member, seq<Topic>>, topics: map<Topic, seq<int>>, prev: Owners) {
    forall p :: p in prev && Known(topics, p) ==> SubscribedTo(subs, prev[p], p.topic)
  }

  lemma PrevIsSubscribed(g: Group, subs: map<Member, seq<Topic>>, topics: map<Topic, seq<int>>)
    requires Describes(g, subs, topics) && PrevStays(subs, topics, g.prev)
    ensures PrevSubscribed(g)
  {
    hide SubscribedTo, Known;
  }

  /** All members are subscribed alike to the given topics, and nobody's claim to a partition is older
      than another's. */
  ghost predicate Alike(members: map<Member, Metadata>, topics: map<Topic, seq<int>>) {
    && (forall t, m, n :: t in topics && SubscribedTo(Subscriptions(members), m, t) && n in members ==> SubscribedTo(Subscriptions(members), n, t))
    && (forall p :: Known(topics, p) ==> !Disputed(Reports(members), p))
  }

  /** No topic has two partitions. */
  ghost predicate Lone(topics: map<Topic, seq<int>>) {
    forall p, q :: Known(topics, p) && Known(topics, q) && p.topic == q.topic ==> p == q
  }

  lemma LoneIsSparse(g: Group, subs: map<Member, seq<Topic>>, topics: map<Topic, seq<int>>)
    requires Describes(g, subs, topics) && Lone(topics) && PrevStays(subs, topics, g.prev)
    ensures Sparse(g)
  {
    PrevIsSubscribed(g, subs, topics);
    hide SubscribedTo, Known, PrevSubscribed, PrevStays;
  }

  lemma AlikeIsUniform(members: map<Member, Metadata>, topics: map<Topic, seq<int>>, g: Group, current: Assignment)
    requires Describes(g, Subscriptions(members), topics) && Resolved(Reports(members), current, g.prev) && Alike(members, topics)
    ensures Uniform(g) && PrevStays(Subscriptions(members), topics, g.prev)
  {
    hide SubscribedTo, Disputed, Latest, Before, OnceEach;
    forall p | p in g.consumersOf && |g.consumersOf[p]| >= 2
      ensures p !in g.prev && forall m :: m in g.partitionsOf ==> m in g.consumersOf[p]
    {
      var n := g.consumersOf[p][0];
      assert n in g.consumersOf[p];
    }
  }

  /** What a plan starts from: the group as members are subscribed, with the previous owners that the
      reports show, and what members hold, namely what their reports let them keep. */
  ghost predicate Prepared(members: map<Member, Metadata>, topics: map<Topic, seq<int>>, g: Group, current: Assignment, held: Assignment) {
    && Describes(g, Subscriptions(members), topics) && Resolved(Reports(members), current, g.prev)
    && forall m, p :: p in At(current, m) && p in g.consumersOf && SubscribedTo(Subscriptions(members), m, p.topic) ==> p in At(held, m)
  }

  /** How a plan was made: the group, the reports resolved, what members held of them, and the loop. */
  datatype Course = Course(g: Group, current: Assignment, held: Assignment, list: seq<Partition>, start: Sheet, n: nat, end: Sheet, steps: seq<Step>)

  ghost predicate Followed(members: map<Member, Metadata>, topics: map<Topic, seq<int>>, sorted: seq<Partition>, passes: nat,
                           c: Course, fixed: Assignment, done: bool) {
    && Prepared(members, topics, c.g, c.current, c.held) && Begins(c.g, sorted, c.held, fixed, c.list, c.start)
    && Looped(c.g, c.list, c.start, passes, done, c.n, c.end, c.steps)
  }

  /** The condition of the revert branch: everybody held something, the loop moved something, and the
      score is not lower for it. */
  ghost predicate Reverts(c: Course) {
    && c.held != map[] && (forall m :: m in c.held ==> c.held[m] != [])
    && c.steps != [] && ScoreOf(c.end.a) >= ScoreOf(c.start.a)
  }

  /** A sticky plan. `sorted` is the order, any order, in which partitions are considered. Whenever
      previous owners are still subscribed and the loop ends, the plan covers unless the revert branch
      is taken; then it covers, but for entries of members set aside, exactly when these hold nothing.
      With members subscribed alike and no claims in several generations, or with one partition a topic,
      the loop ends and the branch is not taken. */
  method Plan(members: map<Member, Metadata>, topics: map<Topic, seq<int>>, sorted: seq<Partition>, passes: nat)
    returns (plan: Assignment, prev: Owners, done: bool, reverted: bool, fixed: Assignment, ghost c: Course)
    requires NoDup(sorted) && forall p :: p in sorted <==> Known(topics, p)
    ensures Followed(members, topics, sorted, passes, c, fixed, done) && c.g.prev == prev
    ensures plan == if done && !reverted then c.end.a + fixed else c.end.a
    ensures reverted <==> done && Reverts(c)
    ensures Indexed(c.end.mv) && Safe(c.end.mv, c.end.owner)
    ensures PrevStays(Subscriptions(members), topics, prev) && done ==>
              if reverted then plan.Keys == members.Keys - fixed.Keys
                               && (PlanPlaces(Subscriptions(members), topics, plan) <==> forall m :: m in fixed ==> fixed[m] == [])
              else PlanCovers(Subscriptions(members), topics, plan)
    ensures Alike(members, topics) ==> PrevStays(Subscriptions(members), topics, prev)
    ensures Alike(members, topics) || (Lone(topics) && PrevStays(Subscriptions(members), topics, prev)) ==>
              !reverted && (2 * passes > ScoreOf(c.start.a) ==> done)
  {
    hide Known, Prepared, Begins, Looped, ScoreOf, CoversBut, WellFormed, IsSorted, NoDup, PlanPlaces,
      Indexed, Safe, PrevStays, Alike, Lone, PlanCovers, Subscriptions;
    var s := new StickyAssignor();
    var current, g, unassigned;
    current, g, s.currentAssignment, s.currentPartitionConsumer, unassigned := Prepare(members, topics);
    prev := g.prev;
    ghost var held := s.currentAssignment;
    var order := SortMemberIDsByPartitionAssignments(s.currentAssignment);
    LeastHolds(order, held);
    ghost var list, start, n, end;
    done, reverted, fixed, list, start, n, end := Balance(s, g, sorted, unassigned, order, passes);
    plan := s.currentAssignment;
    assert s.history[0..] == s.history;
    c := Course(g, current, held, list, start, n, end, s.history);
    LoopLeads(members, topics, sorted, passes, c, fixed, done);
  }

  /** What the balancing starts from. */
  method Prepare(members: map<Member, Metadata>, topics: map<Topic, seq<int>>)
    returns (current: Assignment, g: Group, kept: Assignment, owner: Owners, unassigned: seq<Partition>)
    ensures Prepared(members, topics, g, current, kept) && WellFormed(g) && CoversBut(g, kept, owner, unassigned)
    ensures forall p :: p in g.consumersOf <==> Known(topics, p)
  {
    hide Known, SubscribedTo, Resolved, Describes, CoversBut, WellFormed, OnceEach;
    var subs := Subscriptions(members);
    var prev;
    current, prev := PrepopulateCurrentAssignments(Reports(members));
    WithEveryMember(Reports(members), current, prev);
    var all := map m | m in Reports(members) :: At(current, m);
    g := BuildGroup(subs, topics, prev);
    DescribedIsWellFormed(g, subs, topics);
    assert all.Keys == subs.Keys;
    kept, owner, unassigned := KeepValid(g, subs, topics, all);
    HeldIsKept(members, g, current, kept);
    KnownIsListed(g, subs, topics);
  }

  lemma LeastHolds(order: seq<Member>, held: Assignment)
    requires IsSorted(order, held)
    ensures order != [] && At(held, order[0]) != [] <==> held != map[] && forall m :: m in held ==> held[m] != []
  {
    if order == [] {
      assert forall m :: m !in held;
      assert held == map[];
    } else {
      assert order[0] in order;
      forall m | m in held ensures |At(held, order[0])| <= |held[m]| {
        assert m in order;
      }
    }
  }

  lemma HeldIsKept(members: map<Member, Metadata>, g: Group, current: Assignment, held: Assignment)
    requires var all := map m | m in Reports(members) :: At(current, m);
             forall m, p :: p in At(held, m) <==> MayKeep(g, Subscriptions(members), all, m, p)
    ensures forall m, p :: p in At(current, m) && p in g.consumersOf && SubscribedTo(Subscriptions(members), m, p.topic) ==> p in At(held, m)
  {
    forall m, p | p in At(current, m) && p in g.consumersOf && SubscribedTo(Subscriptions(members), m, p.topic) ensures p in At(held, m) {
      var all := map m | m in Reports(members) :: At(current, m);
      assert MayKeep(g, Subscriptions(members), all, m, p);
    }
  }

  lemma KnownIsListed(g: Group, subs: map<Member, seq<Topic>>, topics: map<Topic, seq<int>>)
    requires Describes(g, subs, topics)
    ensures forall p :: p in g.consumersOf <==> Known(topics, p)
  {
  }

  lemma LoopLeads(members: map<Member, Metadata>, topics: map<Topic, seq<int>>, sorted: seq<Partition>, passes: nat,
                  c: Course, fixed: Assignment, done: bool)
    requires WellFormed(c.g) && (forall p :: p in sorted <==> p in c.g.consumersOf) && Followed(members, topics, sorted, passes, c, fixed, done)
    ensures Indexed(c.end.mv) && Safe(c.end.mv, c.end.owner)
    ensures PrevStays(Subscriptions(members), topics, c.g.prev) ==>
              && PlanCovers(Subscriptions(members), topics, c.end.a + fixed) && c.end.a.Keys == members.Keys - fixed.Keys
              && (PlanPlaces(Subscriptions(members), topics, c.end.a) <==> forall m :: m in fixed ==> fixed[m] == [])
    ensures Alike(members, topics) ==> PrevStays(Subscriptions(members), topics, c.g.prev)
    ensures Alike(members, topics) || (Lone(topics) && PrevStays(Subscriptions(members), topics, c.g.prev)) ==>
              (2 * passes > ScoreOf(c.start.a) ==> done) && (c.steps != [] ==> ScoreOf(c.end.a) < ScoreOf(c.start.a))
  {
    hide Describes, Resolved, SubscribedTo, Begins, Runs, PassOf, ScoreOf, WellFormed, PlanPlaces, PlanCovers, Indexed, Safe, PrevStays, Alike, Lone, Uniform, Sparse;
    LoopIsSafe(c.g, sorted, c.held, fixed, c.list, c.start, c.n, c.end, c.steps);
    if PrevStays(Subscriptions(members), topics, c.g.prev) {
      PlanFollows(members, topics, sorted, c, fixed);
    }
    if Alike(members, topics) || (Lone(topics) && PrevStays(Subscriptions(members), topics, c.g.prev)) {
      if Alike(members, topics) { AlikeIsUniform(members, topics, c.g, c.current); }
      else { LoneIsSparse(c.g, Subscriptions(members), topics); }
      LoopEnds(c.g, sorted, c.held, fixed, c.list, c.start, c.n, c.end, c.steps);
    }
  }

  lemma PlanFollows(members: map<Member, Metadata>, topics: map<Topic, seq<int>>, sorted: seq<Partition>, c: Course, fixed: Assignment)
    requires WellFormed(c.g) && (forall p :: p in sorted <==> p in c.g.consumersOf) && Describes(c.g, Subscriptions(members), topics)
    requires Begins(c.g, sorted, c.held, fixed, c.list, c.start) && Runs(c.g, c.list, c.start, c.n, c.end, c.steps)
    requires PrevStays(Subscriptions(members), topics, c.g.prev)
    ensures PlanCovers(Subscriptions(members), topics, c.end.a + fixed) && c.end.a.Keys == members.Keys - fixed.Keys
    ensures PlanPlaces(Subscriptions(members), topics, c.end.a) <==> forall m :: m in fixed ==> fixed[m] == []
  {
    hide Describes, Begins, Runs, WellFormed, PlanPlaces, PrevStays, Placed, Subscribed, NoDup;
    var subs := Subscriptions(members);
    PrevIsSubscribed(c.g, subs, topics);
    LoopCovers(c.g, sorted, c.held, fixed, c.list, c.start, c.n, c.end, c.steps);
    SameMembers(c.g, subs, topics);
    CoversIsPlan(c.g, subs, topics, c.end.a + fixed, c.end.owner);
    PartIsSound(c.g, c.end.a, fixed, c.end.owner);
    CoversIsPlan(c.g, subs, topics, c.end.a, c.end.owner);
  }

  lemma PartIsSound(g: Group, a: Assignment, fixed: Assignment, owner: Owners)
    requires Sound(g, a + fixed, owner) && a.Keys !! fixed.Keys
    ensures Sound(g, a, owner)
  {
    hide NoDup;
    assert forall m :: m in a ==> (a + fixed)[m] == a[m];
  }
}
