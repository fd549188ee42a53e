/** A whole plan of the range assignor: members by topic, sorted and de-duplicated, and for every topic
    one slice of its partitions for each of its subscribers. */
module RangePlan {
  import opened Assignors

  datatype Member = Member(rank: int)

  type Subscriptions = map<Member, seq<Topic>>

  type Plan = map<Member, map<Topic, seq<int>>>

  predicate Subscribes(subs: Subscriptions, m: Member, t: Topic) {
    m in subs && t in subs[m]
  }

  function Given(plan: Plan, m: Member, t: Topic): seq<int> {
    if m in plan && t in plan[m] then plan[m][t] else []
  }

  // -------------------------------------------------------------------------- members by topic

  /** Every topic's list holds its subscribers, once or more. */
  ghost predicate Lists(subs: Subscriptions, left: set<Member>, mbt: map<Topic, seq<int>>) {
    && (forall t, r :: t in mbt && r in mbt[t] ==> Member(r) !in left && Subscribes(subs, Member(r), t))
    && (forall t, m :: m !in left && Subscribes(subs, m, t) ==> t in mbt && m.rank in mbt[t])
    && (forall t :: t in mbt ==> mbt[t] != [])
  }

  method MembersByTopic(subs: Subscriptions) returns (mbt: map<Topic, seq<int>>)
    ensures Lists(subs, {}, mbt)
  {
    mbt := map[];
    var left := subs.Keys;
    while left != {}
      invariant left <= subs.Keys && Lists(subs, left, mbt)
      decreases left
    {
      var m :| m in left;
      left := left - {m};
      mbt := ListMember(subs, left, mbt, m);
    }
  }

  method ListMember(subs: Subscriptions, ghost left: set<Member>, was: map<Topic, seq<int>>, m: Member) returns (mbt: map<Topic, seq<int>>)
    requires m in subs && m !in left && Lists(subs, left + {m}, was)
    ensures Lists(subs, left, mbt)
  {
    mbt := was;
    for i := 0 to |subs[m]|
      invariant forall t, r :: t in mbt && r in mbt[t] ==> Member(r) !in left && Subscribes(subs, Member(r), t)
      invariant forall t, n :: n !in left && n != m && Subscribes(subs, n, t) ==> t in mbt && n.rank in mbt[t]
      invariant forall k :: 0 <= k < i ==> subs[m][k] in mbt && m.rank in mbt[subs[m][k]]
      invariant forall t :: t in mbt ==> mbt[t] != []
    {
      var t := subs[m][i];
      assert m == Member(m.rank) && Subscribes(subs, m, t);
      mbt := mbt[t := (if t in mbt then mbt[t] else []) + [m.rank]];
    }
  }

  // ------------------------------------------------------------------------- sorted, once each

  function Insert(x: int, s: seq<int>): seq<int> {
    if s == [] || x <= s[0] then [x] + s else [s[0]] + Insert(x, s[1..])
  }

  function Sorted(s: seq<int>): seq<int> {
    if s == [] then [] else Insert(s[0], Sorted(s[1..]))
  }

  lemma {:induction false} InsertKeeps(x: int, s: seq<int>)
    requires Ascending(s)
    ensures Ascending(Insert(x, s)) && forall y :: y in Insert(x, s) <==> y == x || y in s
  {
    if s != [] && s[0] < x {
      InsertKeeps(x, s[1..]);
      assert forall k :: 0 < k < |s| ==> s[k] in s[1..] && s[0] <= s[k];
      assert forall k :: 0 <= k < |Insert(x, s[1..])| ==> Insert(x, s[1..])[k] in Insert(x, s[1..]);
    }
  }

  lemma {:induction false} SortedSorts(s: seq<int>)
    ensures Ascending(Sorted(s)) && forall y :: y in Sorted(s) <==> y in s
  {
    if s != [] {
      SortedSorts(s[1..]);
      InsertKeeps(s[0], Sorted(s[1..]));
    }
  }

  /** The list sorted, in an array, and its duplicates swapped out of the way. */
  method SortedUniq(s: seq<int>) returns (ids: seq<int>)
    ensures StrictlyAscending(ids) && forall x :: x in ids <==> x in s
  {
    SortedSorts(s);
    var sorted := Sorted(s);
    var a := new int[|sorted|](i requires 0 <= i < |sorted| => sorted[i]);
    assert a[..] == sorted;
    var k := Uniq(a);
    ids := a[..k];
  }

  // -------------------------------------------------------------------------------- one topic

  method Add(plan: Plan, m: Member, t: Topic, ps: seq<int>) returns (plan': Plan)
    ensures forall n, u :: Given(plan', n, u) == if n == m && u == t then Given(plan, m, t) + ps else Given(plan, n, u)
  {
    if |ps| == 0 { assert Given(plan, m, t) + ps == Given(plan, m, t); return plan; }
    var topics := if m in plan then plan[m] else map[];
    plan' := plan[m := topics[t := Given(plan, m, t) + ps]];
  }

  /** The sizes of the slices of n partitions. */
  ghost predicate Even(slices: seq<seq<int>>, n: nat)
    requires slices != []
  {
    forall i :: 0 <= i < |slices| ==> |slices[i]| == n / |slices| + if i < n % |slices| then 1 else 0
  }

  /** The subscribers of t share its partitions: the i-th of them, in order, has the i-th slice, slices
      tile the partitions in order, and their sizes differ by at most one, the larger ones first. */
  ghost predicate Shared(subs: Subscriptions, plan: Plan, t: Topic, ps: seq<int>, ids: seq<int>, slices: seq<seq<int>>) {
    && StrictlyAscending(ids) && (forall r :: r in ids <==> Subscribes(subs, Member(r), t))
    && |slices| == |ids| > 0 && Concat(slices) == ps && Even(slices, |ps|)
    && (forall i :: 0 <= i < |ids| ==> Given(plan, Member(ids[i]), t) == slices[i])
    && (forall m :: !Subscribes(subs, m, t) ==> Given(plan, m, t) == [])
  }

  method PlanTopic(subs: Subscriptions, plan: Plan, t: Topic, ids: seq<int>, ps: seq<int>) returns (plan': Plan, slices: seq<seq<int>>)
    requires StrictlyAscending(ids) && ids != [] && forall r :: r in ids <==> Subscribes(subs, Member(r), t)
    requires forall m :: Given(plan, m, t) == []
    ensures Shared(subs, plan', t, ps, ids, slices)
    ensures forall m, u :: u != t ==> Given(plan', m, u) == Given(plan, m, u)
  {
    hide Concat, Even, StrictlyAscending, Given;
    slices := Slices(ps, |ids|);
    plan' := GiveSlices(plan, t, ids, slices);
  }

  method Slices(ps: seq<int>, n: nat) returns (slices: seq<seq<int>>)
    requires n > 0
    ensures |slices| == n && Concat(slices) == ps && Even(slices, |ps|)
  {
    slices := Range(ps, n);
  }

  method GiveSlices(plan: Plan, t: Topic, ids: seq<int>, slices: seq<seq<int>>) returns (plan': Plan)
    requires StrictlyAscending(ids) && |slices| == |ids| && forall m :: Given(plan, m, t) == []
    ensures forall i :: 0 <= i < |ids| ==> Given(plan', Member(ids[i]), t) == slices[i]
    ensures forall m: Member :: m.rank !in ids ==> Given(plan', m, t) == []
    ensures forall m, u :: u != t ==> Given(plan', m, u) == Given(plan, m, u)
  {
    hide Given;
    plan' := plan;
    for i := 0 to |ids|
      invariant forall m, u :: u != t ==> Given(plan', m, u) == Given(plan, m, u)
      invariant forall k :: 0 <= k < i ==> Given(plan', Member(ids[k]), t) == slices[k]
      invariant forall m: Member :: m.rank !in ids[..i] ==> Given(plan', m, t) == []
    {
      assert ids[i] !in ids[..i] && ids[..i + 1] == ids[..i] + [ids[i]];
      plan' := Add(plan', Member(ids[i]), t, slices[i]);
      assert [] + slices[i] == slices[i];
    }
    assert ids[..|ids|] == ids;
  }

  // ----------------------------------------------------------------------------- all topics

  /** What a topic has to give: nothing when it is not known. */
  function PartitionsOf(topics: map<Topic, seq<int>>, t: Topic): seq<int> {
    if t in topics then topics[t] else []
  }

  /** Some subscribers share the partitions of t, if there are any; without subscribers it is not
      given out. */
  ghost predicate Planned(subs: Subscriptions, topics: map<Topic, seq<int>>, plan: Plan, t: Topic) {
    if exists m :: Subscribes(subs, m, t) then exists ids, slices :: Shared(subs, plan, t, PartitionsOf(topics, t), ids, slices)
    else forall m :: Given(plan, m, t) == []
  }

  lemma SharedStays(subs: Subscriptions, plan: Plan, plan': Plan, t: Topic, ps: seq<int>, ids: seq<int>, slices: seq<seq<int>>)
    requires Shared(subs, plan, t, ps, ids, slices) && forall m :: Given(plan', m, t) == Given(plan, m, t)
    ensures Shared(subs, plan', t, ps, ids, slices)
  {
    hide Concat, StrictlyAscending;
  }

  lemma PlannedStays(subs: Subscriptions, topics: map<Topic, seq<int>>, plan: Plan, plan': Plan, t: Topic)
    requires Planned(subs, topics, plan, t) && forall m :: Given(plan', m, t) == Given(plan, m, t)
    ensures Planned(subs, topics, plan', t)
  {
    hide Shared;
    if exists m :: Subscribes(subs, m, t) {
      var ids, slices :| Shared(subs, plan, t, PartitionsOf(topics, t), ids, slices);
      SharedStays(subs, plan, plan', t, PartitionsOf(topics, t), ids, slices);
    }
  }

  /** The plan of the range assignor, for every topic at once. */
  method MakePlan(subs: Subscriptions, topics: map<Topic, seq<int>>) returns (plan: Plan)
    ensures forall t :: Planned(subs, topics, plan, t)
  {
    var mbt := MembersByTopic(subs);
    plan := map[];
    var left := mbt.Keys;
    hide Shared, StrictlyAscending, Planned;
    while left != {}
      invariant left <= mbt.Keys
      invariant forall t :: t in mbt && t !in left ==> Planned(subs, topics, plan, t)
      invariant forall m, t :: t in left || t !in mbt ==> Given(plan, m, t) == []
      decreases left
    {
      var t :| t in left;
      left := left - {t};
      var ids := SortedUniq(mbt[t]);
      ListedAre(subs, mbt, t, ids);
      ghost var slices, was := [], plan;
      plan, slices := PlanTopic(subs, plan, t, ids, PartitionsOf(topics, t));
      SharedIsPlanned(subs, topics, plan, t, ids, slices);
      forall u | u in mbt && u !in left && u != t ensures Planned(subs, topics, plan, u) { PlannedStays(subs, topics, was, plan, u); }
    }
    forall t ensures Planned(subs, topics, plan, t) {
      if t !in mbt { NobodyListed(subs, topics, mbt, plan, t); }
    }
  }

  lemma ListedAre(subs: Subscriptions, mbt: map<Topic, seq<int>>, t: Topic, ids: seq<int>)
    requires Lists(subs, {}, mbt) && t in mbt && forall x :: x in ids <==> x in mbt[t]
    ensures ids != [] && forall r :: r in ids <==> Subscribes(subs, Member(r), t)
  {
    var first: int := mbt[t][0];
    assert first in mbt[t];
    assert first in ids;
    forall r ensures r in ids <==> Subscribes(subs, Member(r), t) {
      if Subscribes(subs, Member(r), t) { assert Member(r).rank in mbt[t]; }
    }
  }

  lemma SharedIsPlanned(subs: Subscriptions, topics: map<Topic, seq<int>>, plan: Plan, t: Topic, ids: seq<int>, slices: seq<seq<int>>)
    requires Shared(subs, plan, t, PartitionsOf(topics, t), ids, slices)
    ensures Planned(subs, topics, plan, t)
  {
    assert ids[0] in ids && Subscribes(subs, Member(ids[0]), t);
    hide Shared;
  }

  lemma NobodyListed(subs: Subscriptions, topics: map<Topic, seq<int>>, mbt: map<Topic, seq<int>>, plan: Plan, t: Topic)
    requires Lists(subs, {}, mbt) && t !in mbt && forall m :: Given(plan, m, t) == []
    ensures Planned(subs, topics, plan, t)
  {
    hide Shared;
  }

  // -------------------------------------------------------------------------- exactly one each

  lemma {:induction false} ConcatHas(slices: seq<seq<int>>, p: int)
    requires p in Concat(slices)
    ensures exists i :: 0 <= i < |slices| && p in slices[i]
  {
    var k := |slices| - 1;
    if p in slices[k] {
    } else {
      ConcatHas(slices[..k], p);
      var i :| 0 <= i < k && p in slices[..k][i];
      assert slices[i] == slices[..k][i];
    }
  }

  ghost predicate Once(s: seq<int>) {
    forall i, j :: 0 <= i < j < |s| ==> s[i] != s[j]
  }

  lemma {:induction false} SliceInConcat(slices: seq<seq<int>>, i: nat)
    requires i < |slices|
    ensures forall p :: p in slices[i] ==> p in Concat(slices)
  {
    var k := |slices| - 1;
    if i < k {
      SliceInConcat(slices[..k], i);
      assert slices[..k][i] == slices[i];
    }
  }

  lemma {:induction false} SlicesApart(slices: seq<seq<int>>, i: nat, j: nat, p: int)
    requires Once(Concat(slices)) && i < j < |slices| && p in slices[i]
    ensures p !in slices[j]
  {
    var k := |slices| - 1;
    var front, last := Concat(slices[..k]), slices[k];
    if j < k {
      assert slices[..k][i] == slices[i] && slices[..k][j] == slices[j];
      assert Once(front) by { assert forall x :: 0 <= x < |front| ==> (front + last)[x] == front[x]; }
      SlicesApart(slices[..k], i, j, p);
    } else {
      SliceInConcat(slices[..k], i);
      assert slices[..k][i] == slices[i];
      var x :| 0 <= x < |front| && front[x] == p;
      assert forall y :: 0 <= y < |last| ==> (front + last)[|front| + y] == last[y] && (front + last)[x] == p;
    }
  }

  /** Range coverage: every partition of a topic with subscribers goes to a subscriber, and to only one
      unless it is listed twice; nobody gets anything else. */
  lemma ExactlyOneSubscriber(subs: Subscriptions, topics: map<Topic, seq<int>>, plan: Plan, t: Topic, p: int)
    requires Planned(subs, topics, plan, t) && exists m :: Subscribes(subs, m, t)
    ensures p in PartitionsOf(topics, t) <==> exists m :: p in Given(plan, m, t)
    ensures forall m :: p in Given(plan, m, t) ==> Subscribes(subs, m, t)
    ensures Once(PartitionsOf(topics, t)) ==> forall m, n :: p in Given(plan, m, t) && p in Given(plan, n, t) ==> m == n
  {
    var ps := PartitionsOf(topics, t);
    var ids, slices :| Shared(subs, plan, t, ps, ids, slices);
    if p in ps {
      ConcatHas(slices, p);
      var i :| 0 <= i < |slices| && p in slices[i];
      assert p in Given(plan, Member(ids[i]), t);
    }
    hide Concat, Once, StrictlyAscending;
    forall m | p in Given(plan, m, t) ensures p in ps {
      var i := SliceOf(subs, plan, t, ps, ids, slices, m, p);
      SliceInConcat(slices, i);
    }
    if Once(ps) {
      forall m, n | p in Given(plan, m, t) && p in Given(plan, n, t) ensures m == n {
        var i := SliceOf(subs, plan, t, ps, ids, slices, m, p);
        var j := SliceOf(subs, plan, t, ps, ids, slices, n, p);
        if i < j { SlicesApart(slices, i, j, p); } else if j < i { SlicesApart(slices, j, i, p); }
      }
    }
  }

  lemma SliceOf(subs: Subscriptions, plan: Plan, t: Topic, ps: seq<int>, ids: seq<int>, slices: seq<seq<int>>, m: Member, p: int) returns (i: nat)
    requires Shared(subs, plan, t, ps, ids, slices) && p in Given(plan, m, t)
    ensures i < |slices| && m == Member(ids[i]) && p in slices[i]
  {
    assert Subscribes(subs, m, t) && m == Member(m.rank);
    assert m.rank in ids;
    i :| 0 <= i < |ids| && ids[i] == m.rank;
  }
}
