/** What a sticky plan starts from: the assignments members report, conflicts between them resolved
    by generation, and the potential consumers of every partition. */
module StickyPrepare {
  import opened StickyMovements
  import opened StickyModel
  import opened StickyPlan

  // -------------------------------------------------------------------- reported assignments

  const DEFAULT_GENERATION := -1

  /** What a member reports: partitions it was given, and in which generation, if it says so. */
  datatype UserData = Versioned(claims: seq<Partition>, number: int) | Unversioned(claims: seq<Partition>)

  function GenerationOf(d: UserData): int {
    if d.Versioned? then d.number else DEFAULT_GENERATION
  }

  /** Reports without a generation are older than any with one, which are counted from zero. */
  lemma UnversionedIsOldest(d: UserData, e: UserData)
    requires d.Unversioned? && e.Versioned? && e.number >= 0
    ensures GenerationOf(d) < GenerationOf(e)
  {
  }

  ghost predicate Claims(data: map<Member, UserData>, m: Member, p: Partition) {
    m in data && p in data[m].claims
  }

  type ByGeneration = map<Partition, map<int, Member>>

  /** Records hold claimants, filed under their generation. */
  ghost predicate Filed(data: map<Member, UserData>, filed: ByGeneration) {
    forall p, gen :: p in filed && gen in filed[p] ==> Claims(data, filed[p][gen], p) && GenerationOf(data[filed[p][gen]]) == gen
  }

  ghost predicate FiledAll(data: map<Member, UserData>, filed: ByGeneration, m: Member, claims: seq<Partition>)
    requires m in data
  {
    forall p :: p in claims ==> p in filed && GenerationOf(data[m]) in filed[p]
  }

  /** What was filed stays filed. */
  ghost predicate StaysFiled(data: map<Member, UserData>, was: ByGeneration, filed: ByGeneration) {
    forall n, claims :: n in data && FiledAll(data, was, n, claims) ==> FiledAll(data, filed, n, claims)
  }

  method FileMember(data: map<Member, UserData>, was: ByGeneration, m: Member) returns (filed: ByGeneration)
    requires Filed(data, was) && m in data && forall p :: p in was ==> was[p] != map[]
    ensures Filed(data, filed) && FiledAll(data, filed, m, data[m].claims) && StaysFiled(data, was, filed)
    ensures forall p :: p in filed ==> filed[p] != map[]
  {
    filed := was;
    var claims := data[m].claims;
    for i := 0 to |claims|
      invariant Filed(data, filed) && FiledAll(data, filed, m, claims[..i]) && StaysFiled(data, was, filed)
      invariant forall p :: p in filed ==> filed[p] != map[]
    {
      var p := claims[i];
      ghost var before := filed;
      var gen := GenerationOf(data[m]);
      if p in filed {
        if data[m].Unversioned? || gen !in filed[p] { filed := filed[p := filed[p][gen := m]]; }
      } else {
        filed := filed[p := map[gen := m]];
      }
      FilingKeeps(data, before, filed, m, p);
      hide Filed;
      assert claims[..i + 1] == claims[..i] + [p];
    }
    assert claims[..|claims|] == claims;
  }

  method FileClaims(data: map<Member, UserData>) returns (filed: ByGeneration)
    ensures Filed(data, filed)
    ensures forall m :: m in data ==> FiledAll(data, filed, m, data[m].claims)
    ensures forall p :: p in filed ==> filed[p] != map[]
  {
    filed := map[];
    var left := data.Keys;
    while left != {}
      invariant left <= data.Keys && Filed(data, filed)
      invariant forall m :: m in data && m !in left ==> FiledAll(data, filed, m, data[m].claims)
      invariant forall p :: p in filed ==> filed[p] != map[]
      decreases left
    {
      hide Filed, FiledAll;
      var m :| m in left;
      left := left - {m};
      filed := FileMember(data, filed, m);
    }
  }

  lemma FilingKeeps(data: map<Member, UserData>, was: ByGeneration, filed: ByGeneration, m: Member, p: Partition)
    requires Filed(data, was) && Claims(data, m, p)
    requires var gen := GenerationOf(data[m]);
             filed == was || filed == was[p := (if p in was then was[p] else map[])[gen := m]]
    ensures Filed(data, filed)
    ensures StaysFiled(data, was, filed)
  {
  }

  lemma NonEmpty(s: set<int>)
    ensures s == {} || exists x :: x in s
  {
    if forall x :: x !in s { assert s == {}; }
  }

  method Highest(gens: set<int>) returns (top: int)
    requires gens != {}
    ensures top in gens && forall x :: x in gens ==> x <= top
  {
    assert exists x :: x in gens by { NonEmpty(gens); }
    top :| top in gens;
    var left := gens;
    while left != {}
      invariant left <= gens && top in gens && forall x :: x in gens && x !in left ==> x <= top
      decreases left
    {
      assert exists x :: x in left by { NonEmpty(left); }
      var x :| x in left;
      if top < x { top := x; }
      left := left - {x};
    }
  }

  /** m is the claimant of p to follow: it claims p and nobody claims it in a later generation. */
  ghost predicate Latest(data: map<Member, UserData>, m: Member, p: Partition) {
    Claims(data, m, p) && forall n :: Claims(data, n, p) ==> GenerationOf(data[n]) <= GenerationOf(data[m])
  }

  /** m claims p in an earlier generation than `next`, and nobody in a generation between. */
  ghost predicate Before(data: map<Member, UserData>, m: Member, next: Member, p: Partition) {
    && Claims(data, m, p) && next in data && GenerationOf(data[m]) < GenerationOf(data[next])
    && forall n :: Claims(data, n, p) && GenerationOf(data[n]) < GenerationOf(data[next]) ==> GenerationOf(data[n]) <= GenerationOf(data[m])
  }

  /** Members claim p in different generations. */
  ghost predicate Disputed(data: map<Member, UserData>, p: Partition) {
    exists m, n :: Claims(data, m, p) && Claims(data, n, p) && GenerationOf(data[m]) < GenerationOf(data[n])
  }

  /** Nobody lists a partition twice or one that another lists. */
  ghost predicate OnceEach(current: Assignment) {
    && (forall m :: m in current ==> NoDup(current[m]))
    && (forall m, n, p :: m in current && n in current && p in current[m] && p in current[n] ==> m == n)
  }

  lemma NoDupAppend<T(!new)>(s: seq<T>, p: T)
    requires NoDup(s) && p !in s
    ensures NoDup(s + [p])
  {
  }

  /** The partitions in `done` are listed, each by its latest claimant. */
  ghost predicate ListsLatest(data: map<Member, UserData>, current: Assignment, done: set<Partition>) {
    && (forall m, p :: m in current && p in current[m] ==> p in done && Latest(data, m, p))
    && (forall p :: p in done ==> exists m :: m in current && p in current[m])
  }

  ghost predicate ListsPrevious(data: map<Member, UserData>, current: Assignment, prev: Owners, done: set<Partition>) {
    && (forall p :: p in prev <==> p in done && Disputed(data, p))
    && (forall m, p :: p in prev && m in current && p in current[m] ==> Before(data, prev[p], m, p))
  }

  /** What members report, made consistent: of several claims to a partition the latest counts and the
      one before it is remembered as the previous owner. */
  ghost predicate Prepopulated(data: map<Member, UserData>, current: Assignment, prev: Owners, done: set<Partition>) {
    OnceEach(current) && ListsLatest(data, current, done) && ListsPrevious(data, current, prev, done)
  }

  lemma ListOne(current: Assignment, m: Member, p: Partition)
    ensures var b := current[m := At(current, m) + [p]];
            forall n, q :: n in b && q in b[n] <==> (n == m && q == p) || (n in current && q in current[n])
  {
  }

  lemma ListOneOnce(current: Assignment, m: Member, p: Partition)
    requires OnceEach(current) && forall n :: n in current ==> p !in current[n]
    ensures OnceEach(current[m := At(current, m) + [p]])
  {
    ListOne(current, m, p);
    NoDupAppend(At(current, m), p);
    hide NoDup;
  }

  lemma ListOneLatest(data: map<Member, UserData>, current: Assignment, done: set<Partition>, p: Partition, m: Member)
    requires ListsLatest(data, current, done) && Latest(data, m, p)
    ensures ListsLatest(data, current[m := At(current, m) + [p]], done + {p})
  {
    hide Latest;
    var b := current[m := At(current, m) + [p]];
    ListOne(current, m, p);
    forall q | q in done + {p} ensures exists n :: n in b && q in b[n] {
      if q == p { assert m in b && p in b[m]; }
      else { var n :| n in current && q in current[n]; assert n in b && q in b[n]; }
    }
  }

  /** What the previous owners become when m is found to be the latest claimant of p. */
  ghost predicate Remembers(data: map<Member, UserData>, prev: Owners, p: Partition, m: Member, prev': Owners) {
    if Disputed(data, p) then p in prev' && prev' == prev[p := prev'[p]] && Before(data, prev'[p], m, p) else prev' == prev
  }

  lemma ListOnePrevious(data: map<Member, UserData>, current: Assignment, prev: Owners, done: set<Partition>,
                        p: Partition, m: Member, prev': Owners)
    requires ListsPrevious(data, current, prev, done) && p !in done && forall n :: n in current ==> p !in current[n]
    requires Remembers(data, prev, p, m, prev')
    ensures ListsPrevious(data, current[m := At(current, m) + [p]], prev', done + {p})
  {
    hide Before, Disputed;
    ListOne(current, m, p);
  }

  lemma PrepopulateMore(data: map<Member, UserData>, current: Assignment, prev: Owners, done: set<Partition>,
                        p: Partition, m: Member, prev': Owners)
    requires Prepopulated(data, current, prev, done) && p !in done && Latest(data, m, p)
    requires Remembers(data, prev, p, m, prev')
    ensures Prepopulated(data, current[m := At(current, m) + [p]], prev', done + {p})
  {
    ListOneOnce(current, m, p);
    ListOneLatest(data, current, done, p, m);
    ListOnePrevious(data, current, prev, done, p, m, prev');
    hide OnceEach, ListsLatest, ListsPrevious;
  }

  /** Every claimed partition is listed exactly once, by its latest claimant; a previous owner is
      remembered exactly for those claimed in several generations, and is the claimant just before. */
  ghost predicate Resolved(data: map<Member, UserData>, current: Assignment, prev: Owners) {
    && OnceEach(current)
    && (forall m, p :: m in current && p in current[m] ==> Latest(data, m, p))
    && (forall n, p :: Claims(data, n, p) ==> exists m :: m in current && p in current[m])
    && (forall p :: p in prev <==> Disputed(data, p))
    && (forall m, p :: p in prev && m in current && p in current[m] ==> Before(data, prev[p], m, p))
  }

  lemma AllResolved(data: map<Member, UserData>, filed: ByGeneration, current: Assignment, prev: Owners)
    requires Filed(data, filed) && (forall m :: m in data ==> FiledAll(data, filed, m, data[m].claims)) && forall q :: q in filed ==> filed[q] != map[]
    requires Prepopulated(data, current, prev, filed.Keys)
    ensures Resolved(data, current, prev)
  {
    hide Latest, Before, Disputed;
    forall n, p | Claims(data, n, p) ensures exists m :: m in current && p in current[m] { ClaimedIsFiled(data, filed, p); }
    forall p | Disputed(data, p) ensures p in filed { DisputedIsFiled(data, filed, p); }
  }

  method PrepopulateCurrentAssignments(data: map<Member, UserData>) returns (current: Assignment, prev: Owners)
    ensures Resolved(data, current, prev)
  {
    hide Prepopulated, Resolved;
    var filed := FileClaims(data);
    current, prev := map[], map[];
    var left := filed.Keys;
    ghost var done := {};
    NothingPrepopulated(data);
    while left != {}
      invariant left <= filed.Keys && done == filed.Keys - left
      invariant Prepopulated(data, current, prev, done)
      decreases left
    {
      var p :| p in left;
      var top := Highest(filed[p].Keys);
      var m := filed[p][top];
      ghost var was := prev;
      TopIsLatest(data, filed, p, top);
      var earlier := filed[p].Keys - {top};
      if earlier != {} {
        var second := Highest(earlier);
        assert forall x :: x in filed[p] && x != top ==> x in earlier;
        SecondIsBefore(data, filed, p, top, second);
        prev := prev[p := filed[p][second]];
      } else {
        NothingEarlier(data, filed, p, top);
      }
      hide Filed, FiledAll, Latest, Before, Disputed;
      PrepopulateMore(data, current, was, done, p, m, prev);
      current := current[m := At(current, m) + [p]];
      left := left - {p};
      done := done + {p};
    }
    assert done == filed.Keys;
    AllResolved(data, filed, current, prev);
  }

  lemma NothingPrepopulated(data: map<Member, UserData>)
    ensures Prepopulated(data, map[], map[], {})
  {
  }

  lemma ClaimedIsFiled(data: map<Member, UserData>, filed: ByGeneration, p: Partition)
    requires Filed(data, filed) && (forall m :: m in data ==> FiledAll(data, filed, m, data[m].claims)) && forall q :: q in filed ==> filed[q] != map[]
    ensures p in filed <==> exists m :: Claims(data, m, p)
  {
    if p in filed {
      NonEmpty(filed[p].Keys);
      var gen :| gen in filed[p];
      assert Claims(data, filed[p][gen], p);
    }
    if exists m :: Claims(data, m, p) {
      var m :| Claims(data, m, p);
      assert FiledAll(data, filed, m, data[m].claims);
    }
  }

  lemma TopIsLatest(data: map<Member, UserData>, filed: ByGeneration, p: Partition, top: int)
    requires Filed(data, filed) && (forall m :: m in data ==> FiledAll(data, filed, m, data[m].claims))
    requires p in filed && top in filed[p] && forall x :: x in filed[p] ==> x <= top
    ensures Latest(data, filed[p][top], p)
  {
    forall n | Claims(data, n, p) ensures GenerationOf(data[n]) <= top {
      assert FiledAll(data, filed, n, data[n].claims);
    }
  }

  lemma SecondIsBefore(data: map<Member, UserData>, filed: ByGeneration, p: Partition, top: int, second: int)
    requires Filed(data, filed) && (forall m :: m in data ==> FiledAll(data, filed, m, data[m].claims))
    requires p in filed && top in filed[p] && second in filed[p] && second < top && forall x :: x in filed[p] && x != top ==> x <= second
    ensures Before(data, filed[p][second], filed[p][top], p) && Disputed(data, p)
  {
    forall n | Claims(data, n, p) && GenerationOf(data[n]) < top ensures GenerationOf(data[n]) <= second {
      assert FiledAll(data, filed, n, data[n].claims);
    }
  }

  lemma NothingEarlier(data: map<Member, UserData>, filed: ByGeneration, p: Partition, top: int)
    requires (forall m :: m in data ==> FiledAll(data, filed, m, data[m].claims)) && p in filed && top in filed[p] && filed[p].Keys - {top} == {}
    ensures !Disputed(data, p)
  {
    forall n | Claims(data, n, p) ensures GenerationOf(data[n]) == top {
      assert FiledAll(data, filed, n, data[n].claims);
      assert GenerationOf(data[n]) !in filed[p].Keys - {top};
    }
  }

  lemma DisputedIsFiled(data: map<Member, UserData>, filed: ByGeneration, p: Partition)
    requires (forall m :: m in data ==> FiledAll(data, filed, m, data[m].claims)) && Disputed(data, p)
    ensures p in filed
  {
    var m :| Claims(data, m, p);
    assert FiledAll(data, filed, m, data[m].claims);
  }

  // --------------------------------------------------------------------- potential consumers

  /** The partition is one of the given topics'. */
  predicate Known(topics: map<Topic, seq<int>>, p: Partition) {
    p.topic in topics && p.number in topics[p.topic]
  }

  predicate SubscribedTo(subs: map<Member, seq<Topic>>, m: Member, t: Topic) {
    m in subs && t in subs[m]
  }

  ghost predicate NoRepeats(consumersOf: map<Partition, seq<Member>>) {
    forall p :: p in consumersOf ==> NoDup(consumersOf[p])
  }

  /** Topics are not listed twice in a subscription, nor partitions in a topic. */
  ghost predicate Clean(subs: map<Member, seq<Topic>>, topics: map<Topic, seq<int>>) {
    (forall m :: m in subs ==> NoDup(subs[m])) && forall t :: t in topics ==> NoDup(topics[t])
  }

  /** The group says who may consume what: the members subscribed to the partition's topic, each once
      unless a topic or a partition is listed twice. */
  ghost predicate Describes(g: Group, subs: map<Member, seq<Topic>>, topics: map<Topic, seq<int>>) {
    && (forall p :: p in g.consumersOf <==> Known(topics, p))
    && (forall p, m :: p in g.consumersOf ==> (m in g.consumersOf[p] <==> SubscribedTo(subs, m, p.topic)))
    && g.partitionsOf.Keys == subs.Keys && (Clean(subs, topics) ==> NoRepeats(g.consumersOf))
    && (forall p, m :: m in g.partitionsOf ==> (p in g.partitionsOf[m] <==> Known(topics, p) && SubscribedTo(subs, m, p.topic)))
  }

  lemma DescribedIsWellFormed(g: Group, subs: map<Member, seq<Topic>>, topics: map<Topic, seq<int>>)
    requires Describes(g, subs, topics)
    ensures WellFormed(g)
  {
  }

  /** All partitions, each with no consumers yet. */
  method NoConsumers(topics: map<Topic, seq<int>>) returns (consumersOf: map<Partition, seq<Member>>)
    ensures forall p :: p in consumersOf <==> Known(topics, p)
    ensures forall p :: p in consumersOf ==> consumersOf[p] == []
  {
    consumersOf := map[];
    var left := topics.Keys;
    while left != {}
      invariant left <= topics.Keys
      invariant forall p :: p in consumersOf <==> Known(topics, p) && p.topic !in left
      invariant forall p :: p in consumersOf ==> consumersOf[p] == []
      decreases left
    {
      var t :| t in left;
      left := left - {t};
      var numbers := topics[t];
      for i := 0 to |numbers|
        invariant forall p :: p in consumersOf <==> (Known(topics, p) && p.topic !in left && p.topic != t) || (p.topic == t && p.number in numbers[..i])
        invariant forall p :: p in consumersOf ==> consumersOf[p] == []
      {
        consumersOf := consumersOf[Partition(t, numbers[i]) := []];
        assert numbers[..i + 1] == numbers[..i] + [numbers[i]];
      }
      assert numbers[..|numbers|] == numbers;
    }
  }

  /** Adds member m to the partitions of topic t. */
  method AddTopic(consumersOf: map<Partition, seq<Member>>, mine: seq<Partition>, topics: map<Topic, seq<int>>, m: Member, t: Topic)
    returns (consumersOf': map<Partition, seq<Member>>, mine': seq<Partition>)
    requires forall p :: p in consumersOf <==> Known(topics, p)
    ensures consumersOf'.Keys == consumersOf.Keys
    ensures forall p, n :: p in consumersOf ==> (n in consumersOf'[p] <==> n in consumersOf[p] || (n == m && p.topic == t))
    ensures forall p :: p in mine' <==> p in mine || (p.topic == t && Known(topics, p))
    ensures ((t in topics ==> NoDup(topics[t])) && NoRepeats(consumersOf)
             && (forall p :: p in consumersOf && p.topic == t ==> m !in consumersOf[p])) ==> NoRepeats(consumersOf')
  {
    consumersOf', mine' := consumersOf, mine;
    if t !in topics { return; }
    var numbers := topics[t];
    ghost var clean := NoDup(numbers) && NoRepeats(consumersOf) && forall p :: p in consumersOf && p.topic == t ==> m !in consumersOf[p];
    for i := 0 to |numbers|
      invariant consumersOf'.Keys == consumersOf.Keys
      invariant forall p, n :: p in consumersOf ==> (n in consumersOf'[p] <==> n in consumersOf[p] || (n == m && p.topic == t && p.number in numbers[..i]))
      invariant forall p :: p in mine' <==> p in mine || (p.topic == t && p.number in numbers[..i])
      invariant clean ==> NoRepeats(consumersOf')
    {
      var p := Partition(t, numbers[i]);
      assert Known(topics, p);
      if clean { NoDupAppend(consumersOf'[p], m); }
      mine' := mine' + [p];
      consumersOf' := consumersOf'[p := consumersOf'[p] + [m]];
      assert numbers[..i + 1] == numbers[..i] + [numbers[i]];
    }
    assert numbers[..|numbers|] == numbers;
  }

  /** Adds member m, subscribed to `wanted`, to the partitions of those topics. */
  method AddMember(consumersOf: map<Partition, seq<Member>>, topics: map<Topic, seq<int>>, m: Member, wanted: seq<Topic>)
    returns (consumersOf': map<Partition, seq<Member>>, mine: seq<Partition>)
    requires forall p :: p in consumersOf <==> Known(topics, p)
    ensures consumersOf'.Keys == consumersOf.Keys
    ensures forall p, n :: p in consumersOf ==> (n in consumersOf'[p] <==> n in consumersOf[p] || (n == m && p.topic in wanted))
    ensures forall p :: p in mine <==> Known(topics, p) && p.topic in wanted
    ensures (NoDup(wanted) && (forall t :: t in topics ==> NoDup(topics[t])) && NoRepeats(consumersOf)
             && (forall p :: p in consumersOf ==> m !in consumersOf[p])) ==> NoRepeats(consumersOf')
  {
    hide Known, NoRepeats;
    consumersOf', mine := consumersOf, [];
    ghost var clean := NoDup(wanted) && (forall t :: t in topics ==> NoDup(topics[t])) && NoRepeats(consumersOf)
                       && forall p :: p in consumersOf ==> m !in consumersOf[p];
    for i := 0 to |wanted|
      invariant consumersOf'.Keys == consumersOf.Keys
      invariant forall p, n :: p in consumersOf ==> (n in consumersOf'[p] <==> n in consumersOf[p] || (n == m && p.topic in wanted[..i]))
      invariant forall p :: p in mine <==> Known(topics, p) && p.topic in wanted[..i]
      invariant clean ==> NoRepeats(consumersOf')
    {
      assert wanted[..i + 1] == wanted[..i] + [wanted[i]];
      consumersOf', mine := AddTopic(consumersOf', mine, topics, m, wanted[i]);
    }
    assert wanted[..|wanted|] == wanted;
  }

  method BuildGroup(subs: map<Member, seq<Topic>>, topics: map<Topic, seq<int>>, prev: Owners) returns (g: Group)
    ensures Describes(g, subs, topics) && g.prev == prev
  {
    hide Known;
    var consumersOf := NoConsumers(topics);
    var partitionsOf: Assignment := map[];
    var left := subs.Keys;
    while left != {}
      invariant left <= subs.Keys
      invariant forall p :: p in consumersOf <==> Known(topics, p)
      invariant forall p, m :: p in consumersOf ==> (m in consumersOf[p] <==> m !in left && SubscribedTo(subs, m, p.topic))
      invariant partitionsOf.Keys == subs.Keys - left && (Clean(subs, topics) ==> NoRepeats(consumersOf))
      invariant forall p, m :: m in partitionsOf ==> (p in partitionsOf[m] <==> Known(topics, p) && SubscribedTo(subs, m, p.topic))
      decreases left
    {
      var m :| m in left;
      left := left - {m};
      var mine;
      consumersOf, mine := AddMember(consumersOf, topics, m, subs[m]);
      partitionsOf := partitionsOf[m := mine];
    }
    g := Group(consumersOf, partitionsOf, prev);
    assert g.partitionsOf.Keys == subs.Keys;
  }

  // ---------------------------------------------------------------- what members may keep

  /** What visited members keep is known, theirs, and subscribed to. */
  ghost predicate Kept(g: Group, subs: map<Member, seq<Topic>>, left: set<Member>, kept: Assignment, owner: Owners) {
    && (forall m :: m in kept ==> NoDup(kept[m]))
    && (forall m, p :: m in kept && p in kept[m] ==> m !in left && p in owner && owner[p] == m && p in g.consumersOf && SubscribedTo(subs, m, p.topic))
  }

  /** The partitions of visited members are owned by them; the other known ones are unvisited. */
  ghost predicate Owned(g: Group, current: Assignment, left: set<Member>, owner: Owners, unvisited: set<Partition>) {
    && (forall p :: p in owner <==> p in g.consumersOf && p !in unvisited)
    && (forall p :: p in owner ==> owner[p] in current && owner[p] !in left && p in current[owner[p]])
    && (forall p :: p in unvisited ==> p in g.consumersOf)
  }

  /** An owned partition is kept, or unassigned because its owner is not subscribed to it. */
  ghost predicate Lost(subs: map<Member, seq<Topic>>, kept: Assignment, owner: Owners, unassigned: seq<Partition>) {
    && NoDup(unassigned)
    && (forall p :: p in unassigned ==> p in owner && !SubscribedTo(subs, owner[p], p.topic))
    && (forall p :: p in owner && p !in unassigned ==> owner[p] in kept && p in kept[owner[p]])
  }

  /** Members not in `left` have been visited: they keep the known partitions they are subscribed to,
      and lose the other known ones to `unassigned`. */
  ghost predicate Visited(g: Group, subs: map<Member, seq<Topic>>, current: Assignment, left: set<Member>,
                          kept: Assignment, owner: Owners, unvisited: set<Partition>, unassigned: seq<Partition>) {
    Kept(g, subs, left, kept, owner) && Owned(g, current, left, owner, unvisited) && Lost(subs, kept, owner, unassigned)
  }

  lemma LostKeeping(subs: map<Member, seq<Topic>>, kept: Assignment, owner: Owners, unassigned: seq<Partition>, m: Member, p: Partition)
    requires Lost(subs, kept, owner, unassigned) && m in kept && p !in owner
    ensures Lost(subs, kept[m := kept[m] + [p]], owner[p := m], unassigned)
  {
    hide NoDup, SubscribedTo;
    var k, o := kept[m := kept[m] + [p]], owner[p := m];
    forall q | q in o && q !in unassigned ensures o[q] in k && q in k[o[q]] {
      if q == p { assert k[m][|kept[m]|] == p; }
      else { assert owner[q] in kept && q in kept[owner[q]]; }
    }
  }

  lemma LostLosing(subs: map<Member, seq<Topic>>, kept: Assignment, owner: Owners, unassigned: seq<Partition>, m: Member, p: Partition)
    requires Lost(subs, kept, owner, unassigned) && p !in owner && !SubscribedTo(subs, m, p.topic)
    ensures Lost(subs, kept, owner[p := m], unassigned + [p])
  {
    assert p !in unassigned;
    NoDupAppend(unassigned, p);
    hide NoDup, SubscribedTo;
    var o, u := owner[p := m], unassigned + [p];
    assert forall q :: q in u <==> q == p || q in unassigned;
  }

  lemma KeptVisiting(g: Group, subs: map<Member, seq<Topic>>, left: set<Member>, kept: Assignment, owner: Owners, m: Member, p: Partition)
    requires Kept(g, subs, left, kept, owner) && m in kept && m !in left && p in g.consumersOf && p !in owner
    ensures Kept(g, subs, left, kept, owner[p := m])
    ensures SubscribedTo(subs, m, p.topic) ==> Kept(g, subs, left, kept[m := kept[m] + [p]], owner[p := m])
  {
    var k, o := kept[m := kept[m] + [p]], owner[p := m];
    assert p !in kept[m];
    NoDupAppend(kept[m], p);
    hide NoDup, SubscribedTo;
    forall n, q | n in k && q in k[n] ensures (n == m && q == p) || (n in kept && q in kept[n]) {
    }
  }

  lemma OwnedVisiting(g: Group, current: Assignment, left: set<Member>, owner: Owners, unvisited: set<Partition>, m: Member, p: Partition)
    requires Owned(g, current, left, owner, unvisited)
    requires m in current && m !in left && p in current[m] && p in g.consumersOf
    ensures Owned(g, current, left, owner[p := m], unvisited - {p})
  {
  }

  lemma VisitPartition(g: Group, subs: map<Member, seq<Topic>>, current: Assignment, left: set<Member>, kept: Assignment,
                       owner: Owners, unvisited: set<Partition>, unassigned: seq<Partition>, m: Member, p: Partition)
    requires Visited(g, subs, current, left, kept, owner, unvisited, unassigned)
    requires m in kept && m in current && m !in left && p in current[m] && p in g.consumersOf && p !in owner
    ensures if SubscribedTo(subs, m, p.topic)
            then Visited(g, subs, current, left, kept[m := kept[m] + [p]], owner[p := m], unvisited - {p}, unassigned)
            else Visited(g, subs, current, left, kept, owner[p := m], unvisited - {p}, unassigned + [p])
  {
    OwnedVisiting(g, current, left, owner, unvisited, m, p);
    KeptVisiting(g, subs, left, kept, owner, m, p);
    LostKeeping(subs, kept, owner, unassigned, m, p);
    if !SubscribedTo(subs, m, p.topic) { LostLosing(subs, kept, owner, unassigned, m, p); }
    hide Kept, Owned, Lost, SubscribedTo;
  }

  /** The loop over one member's partitions. */
  method VisitMember(g: Group, subs: map<Member, seq<Topic>>, current: Assignment, ghost left: set<Member>, kept: Assignment,
                     owner: Owners, unvisited: set<Partition>, unassigned: seq<Partition>, m: Member)
    returns (kept': Assignment, owner': Owners, unvisited': set<Partition>, unassigned': seq<Partition>)
    requires Visited(g, subs, current, left, kept, owner, unvisited, unassigned) && OnceEach(current)
    requires m in current && m !in left && m in kept && kept[m] == [] && forall p :: p in owner ==> owner[p] != m
    ensures Visited(g, subs, current, left, kept', owner', unvisited', unassigned') && kept'.Keys == kept.Keys
    ensures forall p :: p in owner' ==> owner'[p] == m || (p in owner && owner'[p] == owner[p])
    ensures owner.Keys <= owner'.Keys && forall p :: p in current[m] && p in g.consumersOf ==> p in owner'
  {
    kept', owner', unvisited', unassigned' := kept, owner, unvisited, unassigned;
    hide Visited, SubscribedTo;
    for i := 0 to |current[m]|
      invariant Visited(g, subs, current, left, kept', owner', unvisited', unassigned') && kept'.Keys == kept.Keys
      invariant forall p :: p in owner' && owner'[p] == m ==> p in current[m][..i]
      invariant forall p :: p in owner' ==> owner'[p] == m || (p in owner && owner'[p] == owner[p])
      invariant owner.Keys <= owner'.Keys && forall p :: p in current[m][..i] && p in g.consumersOf ==> p in owner'
    {
      var p := current[m][i];
      assert current[m][..i + 1] == current[m][..i] + [p];
      if p !in g.consumersOf { continue; }
      assert p !in owner' by {
        if p in owner' { OwnerListsIt(g, subs, current, left, kept', owner', unvisited', unassigned', p); }
      }
      VisitPartition(g, subs, current, left, kept', owner', unvisited', unassigned', m, p);
      unvisited' := unvisited' - {p};
      owner' := owner'[p := m];
      if !SubscribedTo(subs, m, p.topic) { unassigned' := unassigned' + [p]; continue; }
      kept' := kept'[m := kept'[m] + [p]];
    }
    assert current[m][..|current[m]|] == current[m];
  }

  lemma OwnerListsIt(g: Group, subs: map<Member, seq<Topic>>, current: Assignment, left: set<Member>, kept: Assignment,
                     owner: Owners, unvisited: set<Partition>, unassigned: seq<Partition>, p: Partition)
    requires Visited(g, subs, current, left, kept, owner, unvisited, unassigned) && p in owner
    ensures owner[p] in current && p in current[owner[p]]
  {
  }

  lemma VisitBegins(g: Group, subs: map<Member, seq<Topic>>, current: Assignment, left: set<Member>, kept: Assignment,
                    owner: Owners, unvisited: set<Partition>, unassigned: seq<Partition>, m: Member)
    requires Visited(g, subs, current, left, kept, owner, unvisited, unassigned) && m in left && kept.Keys == current.Keys - left
    ensures Visited(g, subs, current, left - {m}, kept[m := []], owner, unvisited, unassigned)
    ensures forall p :: p in owner ==> owner[p] != m
  {
  }

  lemma NothingVisited(g: Group, subs: map<Member, seq<Topic>>, current: Assignment)
    ensures Visited(g, subs, current, current.Keys, map[], map[], g.consumersOf.Keys, [])
  {
  }

  method Listing(s: set<Partition>) returns (list: seq<Partition>)
    ensures NoDup(list) && forall p :: p in list <==> p in s
  {
    list := [];
    var left := s;
    while left != {}
      invariant left <= s && NoDup(list) && forall p :: p in list <==> p in s && p !in left
      decreases left
    {
      var p :| p in left;
      list := list + [p];
      left := left - {p};
    }
  }

  lemma NoDupConcat(s: seq<Partition>, t: seq<Partition>)
    requires NoDup(s) && NoDup(t) && forall p :: p in s ==> p !in t
    ensures NoDup(s + t)
  {
    assert forall i :: 0 <= i < |s| ==> s[i] in s;
    assert forall i :: 0 <= i < |t| ==> t[i] in t;
  }

  lemma VisitedCovers(g: Group, subs: map<Member, seq<Topic>>, topics: map<Topic, seq<int>>, current: Assignment,
                      kept: Assignment, owner: Owners, unvisited: set<Partition>, unassigned: seq<Partition>, fresh': seq<Partition>)
    requires Describes(g, subs, topics) && Visited(g, subs, current, {}, kept, owner, unvisited, unassigned) && kept.Keys == g.partitionsOf.Keys
    requires NoDup(fresh') && forall p :: p in fresh' <==> p in unvisited
    ensures CoversBut(g, kept, owner, unassigned + fresh')
  {
    hide SubscribedTo, Known, NoDup;
    var all := unassigned + fresh';
    forall p | p in all ensures p in g.consumersOf && Unlisted(kept, p) {
    }
    forall p | p in g.consumersOf && p !in all ensures Placed(kept, owner, p) {
      assert p in owner;
    }
    KeptIsSound(g, subs, topics, kept, owner);
    hide Visited, Describes, Unlisted, Placed, Sound, Subscribed;
    NoDupConcat(unassigned, fresh');
  }

  lemma KeptIsSound(g: Group, subs: map<Member, seq<Topic>>, topics: map<Topic, seq<int>>, kept: Assignment, owner: Owners)
    requires Describes(g, subs, topics) && Kept(g, subs, {}, kept, owner)
    ensures Sound(g, kept, owner) && Subscribed(g, kept)
  {
    hide SubscribedTo, Known, NoDup;
  }

  /** Member m holds p, which exists and is of a topic it is subscribed to. */
  predicate MayKeep(g: Group, subs: map<Member, seq<Topic>>, current: Assignment, m: Member, p: Partition) {
    m in current && p in current[m] && p in g.consumersOf && SubscribedTo(subs, m, p.topic)
  }

  /** What each member keeps of its current partitions, who owns which, and what is left to assign. */
  method KeepValid(g: Group, subs: map<Member, seq<Topic>>, ghost topics: map<Topic, seq<int>>, current: Assignment)
    returns (kept: Assignment, owner: Owners, unassigned: seq<Partition>)
    requires Describes(g, subs, topics) && OnceEach(current) && current.Keys == subs.Keys
    ensures CoversBut(g, kept, owner, unassigned)
    ensures forall m, p :: p in At(kept, m) <==> MayKeep(g, subs, current, m, p)
  {
    hide Visited, Describes;
    kept, owner, unassigned := map[], map[], [];
    var unvisited := g.consumersOf.Keys;
    var left := current.Keys;
    NothingVisited(g, subs, current);
    while left != {}
      invariant left <= current.Keys && kept.Keys == current.Keys - left
      invariant Visited(g, subs, current, left, kept, owner, unvisited, unassigned)
      invariant forall m, p :: m in current && m !in left && p in current[m] && p in g.consumersOf ==> p in owner
      decreases left
    {
      var m :| m in left;
      VisitBegins(g, subs, current, left, kept, owner, unvisited, unassigned, m);
      left := left - {m};
      kept := kept[m := []];
      kept, owner, unvisited, unassigned := VisitMember(g, subs, current, left, kept, owner, unvisited, unassigned, m);
    }
    var rest := Listing(unvisited);
    assert kept.Keys == g.partitionsOf.Keys by { SameMembers(g, subs, topics); }
    VisitedCovers(g, subs, topics, current, kept, owner, unvisited, unassigned, rest);
    KeptWasHeld(g, subs, current, kept, owner, unvisited, unassigned);
    unassigned := unassigned + rest;
  }

  lemma SameMembers(g: Group, subs: map<Member, seq<Topic>>, topics: map<Topic, seq<int>>)
    requires Describes(g, subs, topics)
    ensures g.partitionsOf.Keys == subs.Keys
  {
  }

  /** Members keep exactly what they hold of the known partitions they are subscribed to. */
  lemma KeptWasHeld(g: Group, subs: map<Member, seq<Topic>>, current: Assignment, kept: Assignment,
                    owner: Owners, unvisited: set<Partition>, unassigned: seq<Partition>)
    requires Visited(g, subs, current, {}, kept, owner, unvisited, unassigned) && OnceEach(current)
    requires forall m, p :: m in current && p in current[m] && p in g.consumersOf ==> p in owner
    ensures forall m, p :: p in At(kept, m) <==> MayKeep(g, subs, current, m, p)
  {
    hide NoDup;
    forall m, p ensures p in At(kept, m) <==> MayKeep(g, subs, current, m, p) {
      if p in At(kept, m) { assert p in owner && owner[p] == m; }
      if MayKeep(g, subs, current, m, p) { assert p in owner && owner[p] == m && p !in unassigned; }
    }
  }
}
