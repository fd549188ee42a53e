/** The client's view of a cluster: registered and seed brokers, topic metadata, and a cache of
    partition lists derived from the metadata. */
module ClientCache {
  datatype Topic = Topic(name: string)

  datatype BrokerID = BrokerID(number: int)

  /** A seed broker is an object of its own; a registered one is known by its ID. */
  datatype BrokerRef = Registered(id: BrokerID) | Seed(seed: nat)

  datatype Option<+T> = None | Some(value: T)

  datatype TopicError = NoError | InvalidTopic | AuthorizationFailed | UnknownTopic | NoLeader | OtherError

  datatype PartitionMetadata = PartitionMetadata(id: int, leaderless: bool)

  datatype TopicMetadata = TopicMetadata(topic: Topic, err: TopicError, partitions: seq<PartitionMetadata>)

  datatype BrokerMetadata = BrokerMetadata(id: BrokerID, addr: string)

  datatype Response = Response(brokers: seq<BrokerMetadata>, topics: seq<TopicMetadata>)

  type Partitions = map<int, PartitionMetadata>

  /** The sorted IDs of all partitions and of those that have a leader. */
  datatype Lists = Lists(all: seq<int>, writable: seq<int>)

  // ------------------------------------------------------------------------ what is stored

  function ByID(ps: seq<PartitionMetadata>): Partitions {
    if ps == [] then map[] else ByID(ps[..|ps| - 1])[ps[|ps| - 1].id := ps[|ps| - 1]]
  }

  /** Only these outcomes keep a topic's partitions. */
  predicate Kept(err: TopicError) {
    err == NoError || err == NoLeader
  }

  /** The metadata after a response: the last word on each topic counts. */
  function Updated(metadata: map<Topic, Partitions>, topics: seq<TopicMetadata>): map<Topic, Partitions> {
    if topics == [] then metadata
    else
      var t := topics[|topics| - 1];
      var before := Updated(metadata, topics[..|topics| - 1]) - {t.topic};
      if Kept(t.err) then before[t.topic := ByID(t.partitions)] else before
  }

  /** The i-th entry is the last on its topic. */
  predicate LastOn(topics: seq<TopicMetadata>, i: nat)
    requires i < |topics|
  {
    forall j :: i < j < |topics| ==> topics[j].topic != topics[i].topic
  }

  predicate Names(listed: seq<PartitionMetadata>, id: int) {
    exists i :: 0 <= i < |listed| && listed[i].id == id
  }

  /** The partitions listed, leaderless or not, each under its ID; of several with one ID the last. */
  ghost predicate HoldsPartitions(ps: Partitions, listed: seq<PartitionMetadata>) {
    && (forall id :: id in ps <==> Names(listed, id))
    && (forall i :: 0 <= i < |listed| && !Names(listed[i + 1..], listed[i].id) ==> listed[i].id in ps && ps[listed[i].id] == listed[i])
  }

  lemma NamesMore(listed: seq<PartitionMetadata>, last: PartitionMetadata, id: int)
    ensures Names(listed + [last], id) <==> Names(listed, id) || id == last.id
  {
    var all := listed + [last];
    assert all[|listed|] == last && forall i :: 0 <= i < |listed| ==> all[i] == listed[i];
  }

  lemma HoldsMore(ps: Partitions, listed: seq<PartitionMetadata>, last: PartitionMetadata)
    requires HoldsPartitions(ps, listed)
    ensures HoldsPartitions(ps[last.id := last], listed + [last])
  {
    hide Names;
    var all := listed + [last];
    forall id ensures Names(all, id) <==> Names(listed, id) || id == last.id { NamesMore(listed, last, id); }
    forall i | 0 <= i < |listed| && !Names(all[i + 1..], all[i].id)
      ensures !Names(listed[i + 1..], listed[i].id) && all[i].id != last.id && all[i] == listed[i]
    {
      assert all[i + 1..] == listed[i + 1..] + [last];
      NamesMore(listed[i + 1..], last, all[i].id);
    }
  }

  lemma {:induction false} ByIDHolds(listed: seq<PartitionMetadata>)
    ensures HoldsPartitions(ByID(listed), listed)
  {
    hide HoldsPartitions;
    if listed == [] {
      HoldsNone();
    } else {
      var less, last := listed[..|listed| - 1], listed[|listed| - 1];
      ByIDHolds(less);
      HoldsMore(ByID(less), less, last);
      assert listed == less + [last];
    }
  }

  /** The metadata holds, of every topic named, what is said last of it: its partitions when that is
      said without error or for want of a leader, otherwise nothing. */
  ghost predicate TakesLastWord(metadata: map<Topic, Partitions>, topics: seq<TopicMetadata>) {
    forall i :: 0 <= i < |topics| && LastOn(topics, i) ==>
      var t := topics[i];
      if t.err == NoError || t.err == NoLeader then t.topic in metadata && HoldsPartitions(metadata[t.topic], t.partitions)
      else t.topic !in metadata
  }

  /** Whatever was known before, a response has the last word on the topics it names and leaves the
      others alone. */
  lemma {:induction false} UpdatedTakesLastWord(metadata: map<Topic, Partitions>, topics: seq<TopicMetadata>)
    ensures TakesLastWord(Updated(metadata, topics), topics)
    ensures forall t :: (forall i :: 0 <= i < |topics| ==> topics[i].topic != t) ==>
              (t in Updated(metadata, topics) <==> t in metadata) && (t in metadata ==> Updated(metadata, topics)[t] == metadata[t])
  {
    hide ByID, HoldsPartitions;
    if topics != [] {
      var less := topics[..|topics| - 1];
      UpdatedTakesLastWord(metadata, less);
      ByIDHolds(topics[|topics| - 1].partitions);
      forall i | 0 <= i < |less| && LastOn(topics, i) ensures LastOn(less, i) && topics[i].topic != topics[|topics| - 1].topic {
      }
    }
  }

  predicate WantsRetry(t: TopicMetadata) {
    t.err == UnknownTopic || t.err == NoLeader || (t.err == NoError && exists p :: p in t.partitions && p.leaderless)
  }

  /** The registered brokers after a response: those it lists, at the addresses it lists. */
  function Addresses(bs: seq<BrokerMetadata>): map<BrokerID, string> {
    if bs == [] then map[] else Addresses(bs[..|bs| - 1])[bs[|bs| - 1].id := bs[|bs| - 1].addr]
  }

  predicate NamesBroker(bs: seq<BrokerMetadata>, id: BrokerID) {
    exists i :: 0 <= i < |bs| && bs[i].id == id
  }

  /** Exactly the brokers listed, each at the address listed last for it. */
  ghost predicate HoldsBrokers(brokers: map<BrokerID, string>, bs: seq<BrokerMetadata>) {
    && (forall id :: id in brokers <==> NamesBroker(bs, id))
    && (forall i :: 0 <= i < |bs| && !NamesBroker(bs[i + 1..], bs[i].id) ==> bs[i].id in brokers && brokers[bs[i].id] == bs[i].addr)
  }

  lemma NamesBrokerMore(bs: seq<BrokerMetadata>, last: BrokerMetadata, id: BrokerID)
    ensures NamesBroker(bs + [last], id) <==> NamesBroker(bs, id) || id == last.id
  {
    var all := bs + [last];
    assert all[|bs|] == last && forall i :: 0 <= i < |bs| ==> all[i] == bs[i];
  }

  lemma HoldsBrokersMore(brokers: map<BrokerID, string>, bs: seq<BrokerMetadata>, last: BrokerMetadata)
    requires HoldsBrokers(brokers, bs)
    ensures HoldsBrokers(brokers[last.id := last.addr], bs + [last])
  {
    hide NamesBroker;
    var all := bs + [last];
    forall id ensures NamesBroker(all, id) <==> NamesBroker(bs, id) || id == last.id { NamesBrokerMore(bs, last, id); }
    forall i | 0 <= i < |bs| && !NamesBroker(all[i + 1..], all[i].id)
      ensures !NamesBroker(bs[i + 1..], bs[i].id) && all[i].id != last.id && all[i] == bs[i]
    {
      assert all[i + 1..] == bs[i + 1..] + [last];
      NamesBrokerMore(bs[i + 1..], last, all[i].id);
    }
  }

  lemma {:induction false} AddressesHold(bs: seq<BrokerMetadata>)
    ensures HoldsBrokers(Addresses(bs), bs)
  {
    hide HoldsBrokers;
    if bs == [] {
      HoldsNone();
    } else {
      var less, last := bs[..|bs| - 1], bs[|bs| - 1];
      AddressesHold(less);
      HoldsBrokersMore(Addresses(less), less, last);
      assert bs == less + [last];
    }
  }

  /** What updateBroker's first loop leaves: the old brokers, with those listed added or moved. */
  function Merged(brokers: map<BrokerID, string>, bs: seq<BrokerMetadata>): map<BrokerID, string> {
    if bs == [] then brokers else Merged(brokers, bs[..|bs| - 1])[bs[|bs| - 1].id := bs[|bs| - 1].addr]
  }

  lemma {:induction false} MergedIsListed(brokers: map<BrokerID, string>, bs: seq<BrokerMetadata>)
    ensures forall id :: id in Addresses(bs) ==> id in Merged(brokers, bs) && Merged(brokers, bs)[id] == Addresses(bs)[id]
    ensures forall id :: id in Merged(brokers, bs) <==> id in brokers || id in Addresses(bs)
  {
    if bs != [] { MergedIsListed(brokers, bs[..|bs| - 1]); }
  }

  lemma OnlyListed(all: map<BrokerID, string>, listed: map<BrokerID, string>, r: map<BrokerID, string>)
    requires forall id :: id in listed ==> id in all && all[id] == listed[id]
    requires forall id :: id in r <==> id in all && id in listed.Keys
    requires forall id :: id in r ==> r[id] == all[id]
    ensures r == listed
  {
    assert r.Keys == listed.Keys;
  }

  predicate AnyWantsRetry(ts: seq<TopicMetadata>) {
    exists i :: 0 <= i < |ts| && WantsRetry(ts[i])
  }

  predicate AnyRefused(ts: seq<TopicMetadata>) {
    exists i :: 0 <= i < |ts| && !Kept(ts[i].err)
  }

  /** The topics named. */
  ghost function TopicsOf(ts: seq<TopicMetadata>): set<Topic> {
    set i | 0 <= i < |ts| :: ts[i].topic
  }

  lemma OneMoreTopic(ts: seq<TopicMetadata>, t: TopicMetadata)
    ensures AnyWantsRetry(ts + [t]) <==> AnyWantsRetry(ts) || WantsRetry(t)
    ensures AnyRefused(ts + [t]) <==> AnyRefused(ts) || !Kept(t.err)
    ensures TopicsOf(ts + [t]) == TopicsOf(ts) + {t.topic}
  {
    hide WantsRetry, Kept;
    var all := ts + [t];
    assert all[|ts|] == t && forall i :: 0 <= i < |ts| ==> all[i] == ts[i];
  }

  // --------------------------------------------------------------------------- the cache

  ghost predicate IsSortedListOf(s: seq<int>, ids: set<int>) {
    (forall i, j :: 0 <= i < j < |s| ==> s[i] < s[j]) && (forall x :: x in s <==> x in ids)
  }

  function Writable(ps: Partitions): set<int> {
    set id | id in ps && !ps[id].leaderless
  }

  /** The IDs of all partitions, and of those with a leader, each ascending. */
  ghost predicate ListsOf(l: Lists, ps: Partitions) {
    && (forall i, j :: 0 <= i < j < |l.all| ==> l.all[i] < l.all[j]) && (forall i, j :: 0 <= i < j < |l.writable| ==> l.writable[i] < l.writable[j])
    && (forall id :: id in l.all <==> id in ps) && (forall id :: id in l.writable <==> id in ps && !ps[id].leaderless)
  }

  /** A topic is cached exactly when its metadata is known, and then its lists are the sorted IDs. */
  ghost predicate Agrees(cache: map<Topic, Lists>, metadata: map<Topic, Partitions>) {
    cache.Keys == metadata.Keys && forall t :: t in cache ==> ListsOf(cache[t], metadata[t])
  }

  lemma NonEmpty(s: set<int>)
    ensures s == {} || exists x :: x in s
  {
    if forall x :: x !in s { assert s == {}; }
  }

  method Sorted(ids: set<int>) returns (s: seq<int>)
    ensures IsSortedListOf(s, ids)
  {
    s := [];
    var left := ids;
    while left != {}
      invariant left <= ids && forall x :: x in s <==> x in ids && x !in left
      invariant forall i, j :: 0 <= i < j < |s| ==> s[i] < s[j]
      invariant forall i, x :: 0 <= i < |s| && x in left ==> s[i] < x
      decreases left
    {
      var least := Least(left);
      s := s + [least];
      left := left - {least};
    }
  }

  method Least(ids: set<int>) returns (least: int)
    requires ids != {}
    ensures least in ids && forall x :: x in ids ==> least <= x
  {
    NonEmpty(ids);
    least :| least in ids;
    var left := ids;
    while left != {}
      invariant left <= ids && least in ids && forall x :: x in ids && x !in left ==> least <= x
      decreases left
    {
      NonEmpty(left);
      var x :| x in left;
      if x < least { least := x; }
      left := left - {x};
    }
  }

  // --------------------------------------------------------------------------- the client

  /** What a broker, asked for metadata, does: it answers, the request cannot be sent, it refuses for
      good, or it fails. */
  datatype Reply = Answers(response: Response) | Unsendable | Refuses | Fails

  /** The surroundings of a refresh, by the number of requests and retries so far: what brokers
      reply, how loaded they are, and whether time is up. */
  datatype World = World(replies: nat -> Reply, load: (nat, BrokerID) -> nat, late: nat -> bool, recent: nat -> bool)

  class Client {
    var open: bool
    var brokers: map<BrokerID, string>
    var seedBrokers: seq<nat>
    var deadSeeds: seq<nat>
    var metadata: map<Topic, Partitions>
    var metadataTopics: set<Topic>
    var cached: map<Topic, Lists>

    constructor (seeds: seq<nat>)
      ensures Valid() && open && Seeds() == multiset(seeds)
    {
      open, brokers, seedBrokers, deadSeeds := true, map[], seeds, [];
      metadata, metadataTopics, cached := map[], {}, map[];
      new;
      assert seeds + [] == seeds;
    }

    ghost predicate Valid()
      reads this
    {
      open ==> Agrees(cached, metadata) && metadata.Keys <= metadataTopics
    }

    /** All seed brokers, dead or alive. */
    ghost function Seeds(): multiset<nat>
      reads this
    {
      multiset(seedBrokers + deadSeeds)
    }

    method UpdateBroker(bs: seq<BrokerMetadata>)
      modifies this`brokers
      ensures brokers == Addresses(bs) && HoldsBrokers(brokers, bs)
    {
      ghost var was := brokers;
      var current: set<BrokerID> := {};
      for i := 0 to |bs|
        invariant brokers == Merged(was, bs[..i]) && current == Addresses(bs[..i]).Keys
      {
        assert bs[..i + 1][..i] == bs[..i];
        current := current + {bs[i].id};
        if bs[i].id !in brokers || bs[i].addr != brokers[bs[i].id] { brokers := brokers[bs[i].id := bs[i].addr]; }
        assert brokers == Merged(was, bs[..i])[bs[i].id := bs[i].addr];
      }
      assert bs[..|bs|] == bs;
      MergedIsListed(was, bs);
      brokers := map id | id in brokers && id in current :: brokers[id];
      OnlyListed(Merged(was, bs), Addresses(bs), brokers);
      AddressesHold(bs);
    }

    method SetPartitionCache(topic: Topic) returns (lists: Lists)
      requires topic in metadata
      ensures ListsOf(lists, metadata[topic])
    {
      var all := Sorted(metadata[topic].Keys);
      var writable := Sorted(Writable(metadata[topic]));
      lists := Lists(all, writable);
    }

    /** One topic of a response: forgotten, and stored anew unless its error forbids that. */
    method UpdateTopic(t: TopicMetadata)
      requires open && Valid()
      modifies this`metadata, this`metadataTopics, this`cached
      ensures Valid()
      ensures metadata == var before := old(metadata) - {t.topic}; if Kept(t.err) then before[t.topic := ByID(t.partitions)] else before
      ensures metadataTopics == old(metadataTopics) + {t.topic}
    {
      hide ListsOf;
      metadataTopics := metadataTopics + {t.topic};
      metadata := metadata - {t.topic};
      cached := cached - {t.topic};
      if !Kept(t.err) { return; }
      var ps: Partitions := map[];
      for i := 0 to |t.partitions|
        invariant ps == ByID(t.partitions[..i])
      {
        assert t.partitions[..i + 1][..i] == t.partitions[..i];
        ps := ps[t.partitions[i].id := t.partitions[i]];
      }
      assert t.partitions[..|t.partitions|] == t.partitions;
      metadata := metadata[t.topic := ps];
      var lists := SetPartitionCache(t.topic);
      cached := cached[t.topic := lists];
    }

    /** A closed client ignores the response. `retry` tells whether some topic should be asked for
        again, `failed` whether the response reported an error. */
    method UpdateMetadata(data: Response, allKnown: bool) returns (retry: bool, failed: bool)
      requires Valid()
      modifies this
      ensures Valid() && open == old(open) && seedBrokers == old(seedBrokers) && deadSeeds == old(deadSeeds)
      ensures !old(open) ==> !retry && !failed && unchanged(this)
      ensures open ==> brokers == Addresses(data.brokers) && metadata == Updated(if allKnown then map[] else old(metadata), data.topics)
      ensures open ==> HoldsBrokers(brokers, data.brokers) && TakesLastWord(metadata, data.topics)
      ensures open ==> metadataTopics == (if allKnown then {} else old(metadataTopics)) + TopicsOf(data.topics)
      ensures open ==> retry == AnyWantsRetry(data.topics) && failed == AnyRefused(data.topics)
      ensures open ==> (retry <==> exists t :: t in data.topics && (t.err == UnknownTopic || t.err == NoLeader
                                                                    || (t.err == NoError && exists p :: p in t.partitions && p.leaderless)))
      ensures open ==> (failed <==> exists t :: t in data.topics && t.err != NoError && t.err != NoLeader)
    {
      WhoAsksAgain(data.topics);
      hide Agrees, ByID, Addresses, TakesLastWord, AnyWantsRetry, AnyRefused, HoldsBrokers;
      retry, failed := false, false;
      if !open { return; }
      UpdateBroker(data.brokers);
      if allKnown {
        metadata, metadataTopics, cached := map[], {}, map[];
        EmptyAgrees();
      }
      ghost var start := metadata;
      retry, failed := UpdateTopics(data.topics);
      UpdatedTakesLastWord(start, data.topics);
    }

    /** The loop over the topics of a response. */
    method UpdateTopics(topics: seq<TopicMetadata>) returns (retry: bool, failed: bool)
      requires open && Valid()
      modifies this`metadata, this`metadataTopics, this`cached
      ensures Valid() && metadata == Updated(old(metadata), topics)
      ensures metadataTopics == old(metadataTopics) + TopicsOf(topics)
      ensures retry == AnyWantsRetry(topics) && failed == AnyRefused(topics)
    {
      hide Agrees, ByID, WantsRetry, AnyWantsRetry, AnyRefused, Kept, TopicsOf;
      retry, failed := false, false;
      NoTopics();
      assert topics[..0] == [];
      for i := 0 to |topics|
        invariant Valid() && metadata == Updated(old(metadata), topics[..i])
        invariant metadataTopics == old(metadataTopics) + TopicsOf(topics[..i])
        invariant retry == AnyWantsRetry(topics[..i]) && failed == AnyRefused(topics[..i])
      {
        assert topics[..i + 1] == topics[..i] + [topics[i]] && topics[..i + 1][..i] == topics[..i];
        OneMoreTopic(topics[..i], topics[i]);
        UpdateTopic(topics[i]);
        var again := AsksAgain(topics[i]);
        if again { retry := true; }
        if !Kept(topics[i].err) { failed := true; }
      }
      assert topics[..|topics|] == topics;
    }

    /** Removes a registered broker, or moves the first seed to the dead ones. */
    method DeregisterBroker(b: BrokerRef)
      modifies this`brokers, this`seedBrokers, this`deadSeeds
      ensures Seeds() == old(Seeds())
      ensures b.Registered? && b.id in old(brokers) ==> brokers == old(brokers) - {b.id} && seedBrokers == old(seedBrokers)
      ensures b.Registered? && b.id !in old(brokers) ==> unchanged(this)
      ensures b.Seed? ==> brokers == old(brokers)
      ensures b.Seed? && old(seedBrokers) != [] && old(seedBrokers)[0] == b.seed ==>
                seedBrokers == old(seedBrokers)[1..] && deadSeeds == old(deadSeeds) + [b.seed]
    {
      if b.Registered? {
        brokers := brokers - {b.id};
        assert b.id !in old(brokers) ==> brokers == old(brokers);
      } else if |seedBrokers| > 0 && seedBrokers[0] == b.seed {
        assert seedBrokers == [b.seed] + seedBrokers[1..];
        deadSeeds := deadSeeds + [b.seed];
        seedBrokers := seedBrokers[1..];
      }
    }

    method ResurrectDeadBrokers()
      modifies this`seedBrokers, this`deadSeeds
      ensures Seeds() == old(Seeds()) && deadSeeds == [] && seedBrokers == old(seedBrokers + deadSeeds)
    {
      seedBrokers := seedBrokers + deadSeeds;
      deadSeeds := [];
      assert seedBrokers + [] == seedBrokers;
    }

    /** The registered broker with the fewest pending requests, or the first seed. */
    method LeastLoadedBroker(load: BrokerID -> nat) returns (b: Option<BrokerRef>)
      ensures brokers != map[] ==> b.Some? && b.value.Registered? && b.value.id in brokers
                                   && forall id :: id in brokers ==> load(b.value.id) <= load(id)
      ensures brokers == map[] ==> b == if seedBrokers == [] then None else Some(Seed(seedBrokers[0]))
    {
      b := None;
      var left := brokers.Keys;
      while left != {}
        invariant left <= brokers.Keys && (b.None? <==> left == brokers.Keys)
        invariant b.Some? ==> b.value.Registered? && b.value.id in brokers && forall id :: id in brokers && id !in left ==> load(b.value.id) <= load(id)
        decreases left
      {
        var id :| id in left;
        if b.None? || load(id) < load(b.value.id) { b := Some(Registered(id)); }
        left := left - {id};
      }
      if b.None? && |seedBrokers| > 0 { b := Some(Seed(seedBrokers[0])); }
    }

    /** How many brokers there are left to ask. */
    ghost function InPlay(): nat
      reads this
    {
      |brokers.Keys| + |seedBrokers|
    }

    /** `b` is a broker that may be asked next. */
    ghost predicate Next(b: Option<BrokerRef>)
      reads this
    {
      if brokers != map[] then b.Some? && b.value.Registered? && b.value.id in brokers
      else b == if seedBrokers == [] then None else Some(Seed(seedBrokers[0]))
    }

    /** A broker that failed is taken out, and the next one chosen. */
    method NextBroker(b: BrokerRef, load: BrokerID -> nat) returns (next: Option<BrokerRef>)
      requires Next(Some(b))
      modifies this`brokers, this`seedBrokers, this`deadSeeds
      ensures Seeds() == old(Seeds()) && Next(next) && InPlay() == old(InPlay()) - 1
    {
      DeregisterBroker(b);
      assert b.Registered? ==> brokers.Keys == old(brokers).Keys - {b.id};
      next := LeastLoadedBroker(load);
    }

    /** The client holds what the last reply said, and that reported no error. */
    ghost predicate Reflects(all: bool, w: World, at: nat)
      reads this
    {
      && at > 0 && w.replies(at - 1).Answers?
      && var r := w.replies(at - 1).response;
         && r.brokers != [] && brokers == Addresses(r.brokers) && !AnyRefused(r.topics)
         && TakesLastWord(metadata, r.topics) && (all ==> metadata == Updated(map[], r.topics))
    }

    /** Asks one broker after the other until one ends the try, time is up, or all that were in play
        have been asked. `again` tells that another try may help, `failed` that no answer without error
        was had. */
    method Ask(all: bool, w: World, at: nat) returns (again: bool, failed: bool, at': nat)
      requires Valid()
      modifies this
      ensures Valid() && open == old(open) && Seeds() == old(Seeds()) && at <= at' <= at + old(InPlay())
      ensures forall n :: at <= n < at' ==> !w.late(n) && (n < at' - 1 ==> !Ends(w.replies(n)))
      ensures Stops(w, at, at') || at' == at + old(InPlay()) || w.late(at')
      ensures if !Stops(w, at, at') then again && failed
              else if w.replies(at' - 1).Answers? && open
              then again == AnyWantsRetry(w.replies(at' - 1).response.topics) && failed == AnyRefused(w.replies(at' - 1).response.topics)
              else !again && failed == !w.replies(at' - 1).Answers?
      ensures !failed && open ==> Reflects(all, w, at')
      ensures again && open && !w.late(at') && Seeds() != multiset{} ==> InPlay() > 0
    {
      hide Agrees, Updated, Addresses, AnyWantsRetry, AnyRefused, Next, InPlay, TakesLastWord, HoldsBrokers;
      at' := at;
      var b := First(w, at);
      while b.Some? && !w.late(at')
        invariant Valid() && open == old(open) && Seeds() == old(Seeds()) && Next(b) && at <= at' == at + old(InPlay()) - InPlay()
        invariant forall n :: at <= n < at' ==> !w.late(n) && !Ends(w.replies(n))
        decreases InPlay()
      {
        SomeInPlay(b);
        var reply := w.replies(at');
        at' := at' + 1;
        if reply.Answers? && reply.response.brokers != [] {
          again, failed := UpdateMetadata(reply.response, all);
          if open { BrokersInPlay(reply.response.brokers); }
          return;
        }
        if reply.Unsendable? || reply.Refuses? { return false, true, at'; }
        var n := at';
        b := NextBroker(b.value, id => w.load(n, id));
      }
      if b.None? {
        NoneInPlay();
        ResurrectDeadBrokers();
        if Seeds() != multiset{} { SeedsInPlay(); }
      }
      again, failed := true, true;
    }

    lemma SomeInPlay(b: Option<BrokerRef>)
      requires Next(b) && b.Some?
      ensures InPlay() > 0
    {
      if brokers != map[] { assert b.value.id in brokers.Keys; }
    }

    lemma NoneInPlay()
      requires Next(None)
      ensures InPlay() == 0
    {
    }

    lemma SeedsInPlay()
      requires deadSeeds == [] && Seeds() != multiset{}
      ensures InPlay() > 0
    {
      assert seedBrokers + [] == seedBrokers;
    }

    lemma BrokersInPlay(bs: seq<BrokerMetadata>)
      requires bs != [] && HoldsBrokers(brokers, bs)
      ensures InPlay() > 0
    {
      assert bs[0].id in brokers.Keys;
    }

    /** The refresh loop. It always ends: each broker that fails is taken out of play, and each retry
        uses up an attempt, of which `left` are left. It keeps cache and metadata in agreement and loses
        no seed broker. On an open client it succeeds only with what the last reply said. It goes on
        until a reply settles it, no attempt is left, time is up or another refresh has just been made,
        and asks a broker in every retry if there is any. */
    method TryRefreshMetadata(all: bool, attempts: nat, w: World, at: nat) returns (ok: bool, at': nat, left: nat)
      requires Valid()
      modifies this
      ensures Valid() && open == old(open) && Seeds() == old(Seeds()) && at <= at' && left <= attempts
      ensures ok ==> at < at' && (open ==> Reflects(all, w, at'))
      ensures forall n :: at <= n < at' ==> !w.late(n) && (n < at' - 1 ==> !Settles(open, w.replies(n)))
      ensures at < at' && Settles(open, w.replies(at' - 1)) ==> (ok <==> w.replies(at' - 1).Answers? && (open ==> !AnyRefused(w.replies(at' - 1).response.topics)))
      ensures (at < at' && Settles(open, w.replies(at' - 1))) || left == 0 || w.late(at') || w.recent(at')
      ensures open && Seeds() != multiset{} ==> at' - at >= attempts - left + if old(InPlay()) > 0 && !w.late(at) then 1 else 0
      ensures at' - at >= old(InPlay()) || w.late(at') || exists n :: at <= n < at' && Ends(w.replies(n))
      decreases attempts, 1
    {
      hide Agrees, Reflects, AnyWantsRetry, AnyRefused;
      var again, failed;
      again, failed, at' := Ask(all, w, at);
      ok, left := !failed, attempts;
      if again { ok, at', left := Retry(all, attempts, failed, w, at, at'); }
    }

    method First(w: World, at: nat) returns (b: Option<BrokerRef>)
      ensures Next(b)
    {
      b := LeastLoadedBroker(id => w.load(at, id));
    }

    /** Tries again, unless no attempt is left, time is up, or another refresh has just been made; then
        the outcome is that of the last try, which began at `from`. */
    method Retry(all: bool, attempts: nat, failed: bool, w: World, ghost from: nat, at: nat) returns (ok: bool, at': nat, left: nat)
      requires Valid() && from <= at && (!failed ==> from < at && (open ==> Reflects(all, w, at)))
      requires open && !w.late(at) && Seeds() != multiset{} ==> InPlay() > 0
      requires from < at ==> !Settles(open, w.replies(at - 1))
      modifies this
      ensures Valid() && open == old(open) && Seeds() == old(Seeds()) && at <= at' && left <= attempts
      ensures ok ==> from < at' && (open ==> Reflects(all, w, at'))
      ensures forall n :: at <= n < at' ==> !w.late(n) && (n < at' - 1 ==> !Settles(open, w.replies(n)))
      ensures at < at' && Settles(open, w.replies(at' - 1)) ==> (ok <==> w.replies(at' - 1).Answers? && (open ==> !AnyRefused(w.replies(at' - 1).response.topics)))
      ensures (at < at' && Settles(open, w.replies(at' - 1))) || left == 0 || w.late(at') || w.recent(at')
      ensures open && Seeds() != multiset{} ==> at' - at >= attempts - left
      decreases attempts, 0
    {
      hide Agrees, Reflects, AnyWantsRetry, AnyRefused;
      if attempts == 0 || w.late(at) || w.recent(at) { return !failed, at, attempts; }
      ok, at', left := TryRefreshMetadata(all, attempts - 1, w, at);
    }
  }

  /** A reply that ends a try: an answer with brokers, or that there is no point in asking others. */
  predicate Ends(r: Reply) {
    r.Unsendable? || r.Refuses? || (r.Answers? && r.response.brokers != [])
  }

  /** The try from `at` to `at'` was ended by its last reply. */
  predicate Stops(w: World, at: nat, at': nat) {
    at < at' && Ends(w.replies(at' - 1))
  }

  /** A reply that leaves nothing to ask again. */
  predicate Settles(open: bool, r: Reply) {
    Ends(r) && !(open && r.Answers? && AnyWantsRetry(r.response.topics))
  }

  lemma HoldsNone()
    ensures HoldsPartitions(map[], []) && HoldsBrokers(map[], [])
  {
  }

  lemma WhoAsksAgain(ts: seq<TopicMetadata>)
    ensures AnyWantsRetry(ts) <==> exists t :: t in ts && (t.err == UnknownTopic || t.err == NoLeader
                                                           || (t.err == NoError && exists p :: p in t.partitions && p.leaderless))
    ensures AnyRefused(ts) <==> exists t :: t in ts && t.err != NoError && t.err != NoLeader
  {
    assert forall i :: 0 <= i < |ts| ==> ts[i] in ts;
  }

  lemma NoTopics()
    ensures !AnyWantsRetry([]) && !AnyRefused([]) && TopicsOf([]) == {}
  {
  }

  lemma EmptyAgrees()
    ensures Agrees(map[], map[])
  {
  }

  method AsksAgain(t: TopicMetadata) returns (retry: bool)
    ensures retry == WantsRetry(t)
  {
    if t.err == UnknownTopic || t.err == NoLeader { return true; }
    if t.err != NoError { return false; }
    for i := 0 to |t.partitions|
      invariant forall k :: 0 <= k < i ==> !t.partitions[k].leaderless
    {
      if t.partitions[i].leaderless { return true; }
    }
    retry := false;
  }
}
