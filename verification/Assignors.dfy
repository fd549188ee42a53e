/** The range and round-robin assignors. Member IDs stand for their rank in string order. */
module Assignors {
  datatype Topic = Topic(name: string)

  datatype TopicPartition = TopicPartition(topic: Topic, partition: int)

  // ------------------------------------------------------------------- sorted members, once each

  ghost predicate Ascending(s: seq<int>) {
    forall i, j :: 0 <= i < j < |s| ==> s[i] <= s[j]
  }

  ghost predicate StrictlyAscending(s: seq<int>) {
    forall i, j :: 0 <= i < j < |s| ==> s[i] < s[j]
  }

  /** After the first i elements of `all` have been seen, the first j + 1 elements of s are those,
      once each, and the rest has not been touched. */
  ghost predicate Deduped(s: seq<int>, all: seq<int>, i: nat, j: nat) {
    && j < i <= |s| == |all| && s[i..] == all[i..]
    && StrictlyAscending(s[..j + 1]) && s[j] == all[i - 1]
    && (forall x :: x in s[..j + 1] <==> x in all[..i])
  }

  lemma KeepOne(s: seq<int>, all: seq<int>, i: nat, j: nat)
    requires Deduped(s, all, i, j) && i < |s| && Ascending(all) && s[i] != s[j]
    ensures Deduped(s[i := s[j + 1]][j + 1 := s[i]], all, i + 1, j + 1)
  {
    var s' := s[i := s[j + 1]][j + 1 := s[i]];
    assert s[i] == s[i..][0] == all[i] && all[i - 1] <= all[i];
    assert all[..i + 1] == all[..i] + [all[i]];
    assert s'[..j + 2] == s[..j + 1] + [all[i]];
    assert s'[i + 1..] == s[i..][1..] == all[i + 1..];
    forall k | 0 <= k < j + 1 ensures s[k] < all[i] {
      assert s[k] == s[..j + 1][k] <= s[..j + 1][j];
    }
  }

  lemma SkipOne(s: seq<int>, all: seq<int>, i: nat, j: nat)
    requires Deduped(s, all, i, j) && i < |s| && s[i] == s[j]
    ensures Deduped(s, all, i + 1, j)
  {
    assert s[i] == s[i..][0] == all[i];
    assert all[..i + 1] == all[..i] + [all[i]];
    assert s[i + 1..] == s[i..][1..] == all[i + 1..];
    assert s[j] == s[..j + 1][j];
  }

  /** De-duplicates a sorted list in place by swapping; the first k elements are the result. */
  method Uniq(a: array<int>) returns (k: nat)
    requires Ascending(a[..])
    modifies a
    ensures k <= a.Length && StrictlyAscending(a[..k]) && forall x :: x in a[..k] <==> x in old(a[..])
  {
    if a.Length < 2 { assert a[..a.Length] == a[..]; return a.Length; }
    hide StrictlyAscending, Ascending, Deduped;
    ghost var all := a[..];
    var j := 0;
    FirstOne(all);
    for i := 1 to a.Length
      invariant j < i && Deduped(a[..], all, i, j)
    {
      if a[i] == a[j] { SkipOne(a[..], all, i, j); continue; }
      KeepOne(a[..], all, i, j);
      ghost var s := a[..];
      j := j + 1;
      a[i], a[j] := a[j], a[i];
      assert a[..] == s[i := s[j]][j := s[i]];
    }
    k := j + 1;
    LastOne(a[..], all, j);
  }

  lemma FirstOne(all: seq<int>)
    requires |all| > 1
    ensures Deduped(all, all, 1, 0)
  {
  }

  lemma LastOne(s: seq<int>, all: seq<int>, j: nat)
    requires |s| > 0 && Deduped(s, all, |s|, j)
    ensures j < |s| && StrictlyAscending(s[..j + 1]) && forall x :: x in s[..j + 1] <==> x in all
  {
    assert all[..|s|] == all;
  }

  // -------------------------------------------------------------------------------- range

  function Concat(ss: seq<seq<int>>): seq<int> {
    if ss == [] then [] else Concat(ss[..|ss| - 1]) + ss[|ss| - 1]
  }

  /** Where the slice of the i-th member begins. */
  function Start(n: nat, members: nat, i: nat): nat
    requires members > 0
  {
    i * (n / members) + if n % members < i then n % members else i
  }

  lemma StartMonotone(n: nat, members: nat, i: nat)
    requires members > 0 && i < members
    ensures Start(n, members, i + 1) == Start(n, members, i) + n / members + (if i < n % members then 1 else 0)
    ensures Start(n, members, 0) == 0 && Start(n, members, members) == n
    ensures Start(n, members, i + 1) <= n
  {
    var q, r := n / members, n % members;
    assert (i + 1) * q == i * q + q;
    assert members * q + r == n;
    assert (i + 1) * q <= members * q by { MulMonotone(i + 1, members, q); }
  }

  lemma MulMonotone(a: nat, b: nat, q: nat)
    requires a <= b
    ensures a * q <= b * q
  {
    assert b * q == a * q + (b - a) * q;
  }

  /** The slices tile the partitions exactly, in order, and their sizes differ by at most one, the
      larger ones first. */
  method Range(partitions: seq<int>, members: nat) returns (slices: seq<seq<int>>)
    requires members > 0
    ensures |slices| == members && Concat(slices) == partitions
    ensures forall i :: 0 <= i < members ==> |slices[i]| == |partitions| / members + if i < |partitions| % members then 1 else 0
  {
    var perConsumer, withExtra := |partitions| / members, |partitions| % members;
    slices := [];
    for i := 0 to members
      invariant |slices| == i && Start(|partitions|, members, i) <= |partitions|
      invariant Concat(slices) == partitions[..Start(|partitions|, members, i)]
      invariant forall k :: 0 <= k < i ==> |slices[k]| == perConsumer + if k < withExtra then 1 else 0
    {
      StartMonotone(|partitions|, members, i);
      var min := i * perConsumer + if withExtra < i then withExtra else i;
      var extra := if i < withExtra then 1 else 0;
      var max := min + perConsumer + extra;
      assert (slices + [partitions[min..max]])[..i] == slices;
      assert partitions[..min] + partitions[min..max] == partitions[..max];
      slices := slices + [partitions[min..max]];
    }
    StartMonotone(|partitions|, members, members - 1);
    assert partitions[..|partitions|] == partitions;
  }

  // --------------------------------------------------------------------------- round robin

  /** Every topic has a subscriber. */
  ghost predicate Served(members: seq<set<Topic>>, tps: seq<TopicPartition>) {
    forall k :: 0 <= k < |tps| ==> exists m :: 0 <= m < |members| && tps[k].topic in members[m]
  }

  /** The turns taken: partition k goes to the first subscriber whose turn comes after that of
      partition k - 1, within one round. */
  ghost predicate InTurn(members: seq<set<Topic>>, tps: seq<TopicPartition>, turns: seq<nat>)
    requires members != []
  {
    |turns| == |tps| && forall k :: 0 <= k < |turns| ==> TakesTurn(members, tps[k].topic, NextTurn(turns, k), turns[k])
  }

  /** Turn j is the first from i on that is a subscriber's. */
  ghost predicate TakesTurn(members: seq<set<Topic>>, t: Topic, i: nat, j: nat)
    requires members != []
  {
    i <= j < i + |members| && Has(members, t, j) && Passed(members, t, i, j)
  }

  /** The first turn partition k may take. */
  function NextTurn(turns: seq<nat>, k: nat): nat
    requires k <= |turns|
  {
    if k == 0 then 0 else turns[k - 1] + 1
  }

  /** The member whose turn i is has subscribed to t. */
  predicate Has(members: seq<set<Topic>>, t: Topic, i: nat)
    requires members != []
  {
    t in members[i % |members|]
  }

  /** Nobody whose turn comes from i up to j is subscribed. */
  ghost predicate Passed(members: seq<set<Topic>>, t: Topic, i: nat, j: nat)
    requires members != []
  {
    forall l :: i <= l < j ==> !Has(members, t, l)
  }

  // ---------------------------------------------------------------- quotients and remainders

  lemma MulMinus(a: int, b: int, n: int)
    ensures (a - b) * n == a * n - b * n
  {
  }

  lemma {:induction false} MulAtLeast(d: nat, n: nat)
    requires d >= 1
    ensures d * n >= n
  {
    if d > 1 {
      MulAtLeast(d - 1, n);
      MulMinus(d, 1, n);
    }
  }

  lemma Parts(x: nat, n: nat)
    requires n > 0
    ensures x == (x / n) * n + x % n && 0 <= x % n < n && x / n >= 0
  {
  }

  /** Quotient and remainder are the only numbers that add up. */
  lemma DivMod(q: nat, r: nat, n: nat)
    requires r < n
    ensures (q * n + r) / n == q && (q * n + r) % n == r
  {
    var x := q * n + r;
    Parts(x, n);
    var q', r' := x / n, x % n;
    if q' > q {
      MulMinus(q', q, n);
      MulAtLeast(q' - q, n);
    } else if q > q' {
      MulMinus(q, q', n);
      MulAtLeast(q - q', n);
    }
  }

  lemma NextRound(k: nat, n: nat)
    requires n > 0
    ensures if k % n == n - 1 then (k + 1) % n == 0 && (k + 1) / n == k / n + 1 else (k + 1) % n == k % n + 1 && (k + 1) / n == k / n
  {
    Parts(k, n);
    var q, r := k / n, k % n;
    if r == n - 1 {
      MulMinus(q + 1, q, n);
      DivMod(q + 1, 0, n);
    } else {
      DivMod(q, r + 1, n);
    }
  }

  /** From turn i on, member m is reached within one round. */
  lemma {:induction false} TurnComes(n: nat, i: nat, m: nat, d: nat) returns (j: nat)
    requires m < n && d == if m >= i % n then m - i % n else n - i % n + m
    ensures i <= j < i + n && j == i + d && j % n == m
    decreases d
  {
    Parts(i, n);
    if d == 0 {
      j := i;
    } else {
      NextRound(i, n);
      j := TurnComes(n, i + 1, m, d - 1);
    }
  }

  /** The next turn of a subscriber, within one round. */
  method NextSubscriber(members: seq<set<Topic>>, t: Topic, i: nat) returns (j: nat)
    requires members != [] && exists m :: 0 <= m < |members| && t in members[m]
    ensures TakesTurn(members, t, i, j)
  {
    var n := |members|;
    ghost var m :| 0 <= m < n && t in members[m];
    ghost var d := if m >= i % n then m - i % n else n - i % n + m;
    ghost var stop := TurnComes(n, i, m, d);
    assert Has(members, t, stop);
    hide Has;
    j := i;
    while !Has(members, t, j)
      invariant i <= j <= stop && Passed(members, t, i, j)
      decreases stop - j
    {
      j := j + 1;
    }
  }

  lemma NoTurns(members: seq<set<Topic>>)
    requires members != []
    ensures InTurn(members, [], []) && NextTurn([], 0) == 0
  {
  }

  lemma OneMoreTurn(members: seq<set<Topic>>, tps: seq<TopicPartition>, turns: seq<nat>, k: nat, j: nat)
    requires members != [] && k < |tps| && |turns| == k && InTurn(members, tps[..k], turns)
    requires TakesTurn(members, tps[k].topic, NextTurn(turns, k), j)
    ensures InTurn(members, tps[..k + 1], turns + [j]) && NextTurn(turns + [j], k + 1) == j + 1
  {
    hide NextTurn, TakesTurn;
    LastTurn(turns, j);
    var more := turns + [j];
    forall l | 0 <= l < k + 1 ensures TakesTurn(members, tps[..k + 1][l].topic, NextTurn(more, l), more[l]) {
      SameTurn(turns, j, l);
      if l < k { assert tps[..k][l] == tps[..k + 1][l]; }
    }
  }

  lemma LastTurn(turns: seq<nat>, j: nat)
    ensures NextTurn(turns + [j], |turns| + 1) == j + 1
  {
  }

  lemma SameTurn(turns: seq<nat>, j: nat, l: nat)
    requires l <= |turns|
    ensures NextTurn(turns + [j], l) == NextTurn(turns, l)
  {
  }

  /** Hands out partitions in turn. It ends because every topic has a subscriber; each partition goes
      to exactly one member, a subscriber, and within one round of the previous one. */
  method RoundRobin(members: seq<set<Topic>>, tps: seq<TopicPartition>) returns (turns: seq<nat>)
    requires members != [] && Served(members, tps)
    ensures InTurn(members, tps, turns)
  {
    hide TakesTurn, InTurn, NextTurn;
    NoTurns(members);
    turns := [];
    var i := 0;
    for k := 0 to |tps|
      invariant |turns| == k && InTurn(members, tps[..k], turns) && i == NextTurn(turns, k)
    {
      i := NextSubscriber(members, tps[k].topic, i);
      OneMoreTurn(members, tps, turns, k, i);
      turns := turns + [i];
      i := i + 1;
    }
    assert tps[..|tps|] == tps;
  }

  /** Without a subscriber the search for one would find none, however far it goes. */
  lemma UnservedNeverFound(members: seq<set<Topic>>, t: Topic)
    requires members != []
    ensures (exists i: nat :: Has(members, t, i)) <==> exists m :: 0 <= m < |members| && t in members[m]
  {
    if exists m :: 0 <= m < |members| && t in members[m] {
      var m: nat :| m < |members| && t in members[m];
      DivMod(0, m, |members|);
      assert Has(members, t, m);
    }
    if exists i: nat :: Has(members, t, i) {
      var i: nat :| Has(members, t, i);
      Parts(i, |members|);
    }
  }

  // ------------------------------------------------------------------------------ fairness

  lemma NextAfter(turns: seq<nat>, k: nat)
    requires k <= |turns|
    ensures NextTurn(turns, k) == if k == 0 then 0 else turns[k - 1] + 1
  {
  }

  /** Under identical subscriptions partition k takes turn k. */
  lemma {:induction false} IdenticalTurns(members: seq<set<Topic>>, tps: seq<TopicPartition>, turns: seq<nat>, k: nat)
    requires members != [] && InTurn(members, tps, turns) && k < |turns|
    requires forall m, l :: 0 <= m < |members| && 0 <= l < |tps| ==> tps[l].topic in members[m]
    ensures turns[k] == k
  {
    hide NextTurn, Has, TakesTurn;
    NextAfter(turns, k);
    if k > 0 { IdenticalTurns(members, tps, turns, k - 1); }
    assert TakesTurn(members, tps[k].topic, NextTurn(turns, k), turns[k]);
    AllHave(members, tps[k].topic, k);
    TurnAtOnce(members, tps[k].topic, k, turns[k]);
  }

  lemma AllHave(members: seq<set<Topic>>, t: Topic, i: nat)
    requires members != [] && forall m :: 0 <= m < |members| ==> t in members[m]
    ensures Has(members, t, i)
  {
    Parts(i, |members|);
  }

  lemma TurnAtOnce(members: seq<set<Topic>>, t: Topic, i: nat, j: nat)
    requires members != [] && TakesTurn(members, t, i, j) && Has(members, t, i)
    ensures i == j
  {
    hide Has;
  }

  /** How many of the turns go to member m. */
  function Load(turns: seq<nat>, n: nat, m: nat): nat
    requires n > 0
  {
    if turns == [] then 0 else Load(turns[..|turns| - 1], n, m) + if turns[|turns| - 1] % n == m then 1 else 0
  }

  lemma {:induction false} LoadOfRounds(turns: seq<nat>, n: nat, m: nat)
    requires m < n && forall k :: 0 <= k < |turns| ==> turns[k] == k
    ensures Load(turns, n, m) == |turns| / n + if m < |turns| % n then 1 else 0
  {
    Parts(|turns|, n);
    if turns == [] {
      DivMod(0, 0, n);
    } else {
      var k := |turns| - 1;
      LoadOfRounds(turns[..k], n, m);
      NextRound(k, n);
    }
  }

  /** Round-robin fairness: under identical subscriptions the loads of any two members differ by at
      most one. */
  lemma RoundRobinFair(members: seq<set<Topic>>, tps: seq<TopicPartition>, turns: seq<nat>, a: nat, b: nat)
    requires members != [] && InTurn(members, tps, turns) && a < |members| && b < |members|
    requires forall m, l :: 0 <= m < |members| && 0 <= l < |tps| ==> tps[l].topic in members[m]
    ensures Load(turns, |members|, a) <= Load(turns, |members|, b) + 1
  {
    forall k | 0 <= k < |turns| ensures turns[k] == k { IdenticalTurns(members, tps, turns, k); }
    LoadOfRounds(turns, |members|, a);
    LoadOfRounds(turns, |members|, b);
  }
}
