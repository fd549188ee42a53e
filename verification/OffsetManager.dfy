/** The offset manager of a consumer group: which offset each partition manager has marked, whether
    it still has to be committed, and what the broker has acknowledged. Marks and resets may come
    between any two steps; commits follow one another. */
module OffsetManagers {
  datatype Topic = Topic(name: string)

  datatype Slot = Slot(topic: Topic, partition: int)

  datatype Mark = Mark(offset: int, metadata: string)

  datatype PartitionManager = PartitionManager(mark: Mark, dirty: bool, done: bool)

  datatype Option<+T> = None | Some(value: T)

  /** What the broker says of one partition of a commit, if anything: stored, or not for one of
      several reasons. */
  datatype Verdict = Stored | Redispatch | UserError | Loading | Fenced | OtherError

  /** How the broker's word changes a manager and what is acknowledged: when it stored `block` that is
      acknowledged, and the manager is clean exactly if it still holds it; else nothing changes. */
  ghost predicate Answered(stored: bool, block: Mark, was: PartitionManager, ack: Mark, pom: PartitionManager, ack': Mark) {
    && pom.mark == was.mark && pom.done == was.done
    && (if stored then ack' == block && pom.dirty == (was.dirty && pom.mark != block) else ack' == ack && pom == was)
  }

  /** The broker was reached and says that it stored what it was sent of partition k. */
  predicate Stores(answer: Option<map<Slot, Verdict>>, k: Slot) {
    answer.Some? && k in answer.value && answer.value[k] == Stored
  }

  /** One of the first n answers stores partition k. */
  predicate StoredWithin(answers: nat -> Option<map<Slot, Verdict>>, n: nat, k: Slot) {
    exists a: nat :: a < n && Stores(answers(a), k)
  }

  lemma NotAsked(was: PartitionManager, ack: Mark)
    ensures Answered(false, was.mark, was, ack, was, ack)
  {
  }

  /** A manager that is clean after the broker's word holds what is acknowledged, if a stored block was
      that of a dirty manager. */
  lemma AnsweredClean(stored: bool, block: Mark, was: PartitionManager, ack: Mark, pom: PartitionManager, ack': Mark)
    requires Answered(stored, block, was, ack, pom, ack') && !pom.dirty
    requires (stored ==> was.dirty) && (!was.dirty ==> was.mark == ack)
    ensures pom.mark == ack'
  {
  }

  lemma OneMoreAnswer(answers: nat -> Option<map<Slot, Verdict>>, n: nat, k: Slot)
    ensures StoredWithin(answers, n + 1, k) <==> StoredWithin(answers, n, k) || Stores(answers(n), k)
  {
    hide Stores;
  }

  lemma MoreAnswers(answers: nat -> Option<map<Slot, Verdict>>, n: nat, m: nat, k: Slot)
    requires n <= m && StoredWithin(answers, n, k)
    ensures StoredWithin(answers, m, k)
  {
    hide Stores;
  }

  class OffsetManager {
    var poms: map<Slot, PartitionManager>
    /** The commit request that is under way. */
    var request: Option<map<Slot, Mark>>
    /** For each managed partition what was fetched at first or last acknowledged by the broker. */
    ghost var acknowledged: map<Slot, Mark>
    /** Errors reported to the user so far. */
    var errors: nat

    constructor ()
      ensures Valid() && poms == map[] && request.None?
    {
      poms, request, acknowledged, errors := map[], None, map[], 0;
    }

    /** A clean manager holds what the broker holds; a partition with a commit under way is dirty. */
    ghost predicate Valid()
      reads this
    {
      && (forall k :: k in poms ==> k in acknowledged && (!poms[k].dirty ==> poms[k].mark == acknowledged[k]))
      && (request.Some? ==> forall k :: k in request.value && k in poms ==> poms[k].dirty)
      && (request.Some? ==> forall k :: k in request.value ==> k in poms)
    }

    /** Starts to manage a partition at the offset fetched from the broker. */
    method ManagePartition(k: Slot, fetched: Mark) returns (ok: bool)
      requires Valid()
      modifies this
      ensures Valid() && ok == (k !in old(poms))
      ensures poms == if ok then old(poms)[k := PartitionManager(fetched, false, false)] else old(poms)
      ensures request == old(request)
    {
      if k in poms { return false; }
      poms := poms[k := PartitionManager(fetched, false, false)];
      acknowledged := acknowledged[k := fetched];
      ok := true;
    }

    /** Marks only ever move forward. */
    method MarkOffset(k: Slot, mark: Mark)
      requires Valid() && k in poms
      modifies this`poms
      ensures Valid() && poms == old(poms)[k := if mark.offset > old(poms)[k].mark.offset then old(poms)[k].(mark := mark, dirty := true) else old(poms)[k]]
    {
      if mark.offset > poms[k].mark.offset { poms := poms[k := poms[k].(mark := mark, dirty := true)]; }
      assert mark.offset <= old(poms)[k].mark.offset ==> poms == old(poms)[k := old(poms)[k]];
    }

    /** Resets only ever move back, or change the metadata. */
    method ResetOffset(k: Slot, mark: Mark)
      requires Valid() && k in poms
      modifies this`poms
      ensures Valid() && poms == old(poms)[k := if mark.offset <= old(poms)[k].mark.offset then old(poms)[k].(mark := mark, dirty := true) else old(poms)[k]]
    {
      if mark.offset <= poms[k].mark.offset { poms := poms[k := poms[k].(mark := mark, dirty := true)]; }
      assert mark.offset > old(poms)[k].mark.offset ==> poms == old(poms)[k := old(poms)[k]];
    }

    method AsyncClose(k: Slot)
      requires Valid() && k in poms
      modifies this`poms
      ensures Valid() && poms == old(poms)[k := old(poms)[k].(done := true)]
    {
      poms := poms[k := poms[k].(done := true)];
    }

    /** The request holds the mark of every dirty manager, and no other; there is none when all are
        clean. */
    method ConstructRequest()
      requires Valid() && request.None?
      modifies this`request
      ensures Valid()
      ensures request.None? <==> forall k :: k in poms ==> !poms[k].dirty
      ensures request.Some? ==> forall k :: k in request.value <==> k in poms && poms[k].dirty
      ensures request.Some? ==> forall k :: k in request.value ==> request.value[k] == poms[k].mark
    {
      var blocks: map<Slot, Mark> := map[];
      var left := poms.Keys;
      while left != {}
        invariant left <= poms.Keys
        invariant forall k :: k in blocks <==> k in poms && k !in left && poms[k].dirty
        invariant forall k :: k in blocks ==> blocks[k] == poms[k].mark
        decreases left
      {
        var k :| k in left;
        left := left - {k};
        if poms[k].dirty { blocks := blocks[k := poms[k].mark]; }
      }
      if blocks != map[] {
        var k :| k in blocks;
        assert poms[k].dirty;
        request := Some(blocks);
      }
    }

    /** The commit failed as a whole: every manager reports it, nothing changes hands. */
    method HandleError()
      requires Valid()
      modifies this`request, this`errors
      ensures Valid() && request.None? && errors == old(errors) + |poms|
    {
      request := None;
      errors := errors + |poms|;
    }

    /** The broker's word on one partition of the request. */
    method HandleVerdict(k: Slot, block: Mark, verdict: Option<Verdict>)
      requires k in poms && k in acknowledged
      modifies this`poms, this`acknowledged, this`errors
      ensures k in poms && k in acknowledged && poms == old(poms)[k := poms[k]] && acknowledged == old(acknowledged)[k := acknowledged[k]]
      ensures Answered(verdict == Some(Stored), block, old(poms)[k], old(acknowledged)[k], poms[k], acknowledged[k])
      ensures errors == old(errors) + if verdict == Some(Stored) || verdict == Some(Redispatch) || verdict == Some(Loading) then 0 else 1
    {
      assert poms == poms[k := poms[k]] && acknowledged == acknowledged[k := acknowledged[k]];
      if verdict.None? { errors := errors + 1; return; }
      match verdict.value
      case Stored =>
        acknowledged := acknowledged[k := block];
        if poms[k].mark == block { poms := poms[k := poms[k].(dirty := false)]; }
      case Redispatch =>
      case Loading =>
      case UserError => errors := errors + 1;
      case Fenced => errors := errors + 1;
      case OtherError => errors := errors + 1;
    }

    /** The broker's answer, partition by partition: what it stored is acknowledged, and a manager is
        clean then exactly when it still holds what was committed. */
    method HandleResponse(verdicts: map<Slot, Verdict>)
      requires Valid() && request.Some?
      modifies this
      ensures Valid() && request.None? && poms.Keys == old(poms.Keys)
      ensures acknowledged.Keys == old(acknowledged.Keys)
      ensures forall k :: k in acknowledged && k !in poms ==> acknowledged[k] == old(acknowledged)[k]
      ensures var blocks := old(request).value;
              forall k :: k in poms ==>
                Answered(k in blocks && k in verdicts && verdicts[k] == Stored, if k in blocks then blocks[k] else old(poms)[k].mark,
                         old(poms)[k], old(acknowledged)[k], poms[k], acknowledged[k])
    {
      hide Answered;
      var blocks := request.value;
      var left := poms.Keys;
      ghost var was, acks := poms, acknowledged;
      while left != {}
        invariant left <= poms.Keys == was.Keys <= acknowledged.Keys == acks.Keys && request == old(request)
        invariant forall k :: k in left ==> poms[k] == was[k] && acknowledged[k] == acks[k]
        invariant forall k :: k in acknowledged && k !in poms ==> acknowledged[k] == acks[k]
        invariant forall k :: k in poms && k !in left ==>
                    Answered(k in blocks && k in verdicts && verdicts[k] == Stored, if k in blocks then blocks[k] else was[k].mark,
                             was[k], acks[k], poms[k], acknowledged[k])
        decreases left
      {
        var k :| k in left;
        left := left - {k};
        if k !in blocks { NotAsked(was[k], acks[k]); continue; }
        HandleVerdict(k, blocks[k], if k in verdicts then Some(verdicts[k]) else None);
      }
      request := None;
      forall k | k in poms && !poms[k].dirty ensures poms[k].mark == acknowledged[k] {
        AnsweredClean(k in blocks && k in verdicts && verdicts[k] == Stored, if k in blocks then blocks[k] else was[k].mark,
                      was[k], acks[k], poms[k], acknowledged[k]);
      }
    }

    /** Removes managers that are closed, and clean unless forced. */
    method ReleasePOMs(force: bool) returns (remaining: nat)
      requires Valid() && (force ==> request.None?)
      modifies this`poms
      ensures Valid() && remaining == |poms|
      ensures forall k :: k in poms <==> k in old(poms) && !(old(poms)[k].done && (force || !old(poms)[k].dirty))
      ensures forall k :: k in poms ==> poms[k] == old(poms)[k]
    {
      ghost var was := poms;
      var left := poms.Keys;
      while left != {}
        invariant left <= poms.Keys && poms.Keys <= was.Keys
        invariant forall k :: k in poms ==> poms[k] == was[k]
        invariant forall k :: k in poms <==> k in was && (k in left || !(was[k].done && (force || !was[k].dirty)))
        decreases left
      {
        var k :| k in left;
        left := left - {k};
        if poms[k].done && (force || !poms[k].dirty) { poms := poms - {k}; }
      }
      remaining := |poms|;
    }
  
    /** One commit: `answer` is the broker's, or nothing when it could not be reached. Every dirty manager
        is committed: it is clean afterwards, and its mark acknowledged, exactly when the broker says it
        stored that; all else stays as it was. */
    method Flush(answer: Option<map<Slot, Verdict>>)
      requires Valid() && request.None?
      modifies this
      ensures Valid() && request.None? && poms.Keys == old(poms.Keys) && acknowledged.Keys == old(acknowledged.Keys)
      ensures forall k :: k in poms ==>
                if old(poms)[k].dirty && Stores(answer, k)
                then poms[k] == old(poms)[k].(dirty := false) && acknowledged[k] == old(poms)[k].mark
                else poms[k] == old(poms)[k] && acknowledged[k] == old(acknowledged)[k]
      ensures forall k :: k in acknowledged && k !in poms ==> acknowledged[k] == old(acknowledged)[k]
    {
      ConstructRequest();
      if request.None? { return; }
      if answer.None? { HandleError(); return; }
      HandleResponse(answer.value);
    }

    /** A commit, after which managers that are closed and clean are released. */
    method Commit(answer: Option<map<Slot, Verdict>>) returns (remaining: nat)
      requires Valid() && request.None?
      modifies this
      ensures Valid() && request.None? && remaining == |poms| && acknowledged.Keys == old(acknowledged.Keys)
      ensures forall k :: k in poms <==> k in old(poms) && !(old(poms)[k].done && (old(poms)[k].dirty ==> Stores(answer, k)))
      ensures forall k :: k in poms ==> poms[k] == old(poms)[k].(dirty := old(poms)[k].dirty && !Stores(answer, k))
      ensures forall k :: k in acknowledged ==>
                acknowledged[k] == if k in old(poms) && old(poms)[k].dirty && Stores(answer, k) then old(poms)[k].mark else old(acknowledged)[k]
    {
      Flush(answer);
      remaining := ReleasePOMs(false);
    }

    /** Commits until all managers are released, which are closed, at most `retries` + 1 times: what is
        left are exactly the dirty ones that no answer stored. */
    method FlushAll(retries: nat, answers: nat -> Option<map<Slot, Verdict>>)
      requires Valid() && request.None? && forall k :: k in poms ==> poms[k].done
      modifies this
      ensures Valid() && request.None? && acknowledged.Keys == old(acknowledged.Keys)
      ensures forall k :: k in poms <==> k in old(poms) && old(poms)[k].dirty && !StoredWithin(answers, retries + 1, k)
      ensures forall k :: k in poms ==> poms[k] == old(poms)[k] && acknowledged[k] == old(acknowledged)[k]
      ensures forall k :: k in old(poms) && k !in poms ==> k in acknowledged && acknowledged[k] == old(poms)[k].mark
    {
      ghost var was, acks := poms, acknowledged;
      for attempt := 0 to retries + 1
        invariant Valid() && request.None? && acknowledged.Keys == acks.Keys && poms.Keys <= was.Keys
        invariant forall k :: k in poms ==> poms[k] == was[k] && acknowledged[k] == acks[k]
        invariant forall k :: k in poms ==> attempt > 0 ==> was[k].dirty
        invariant forall k :: k in was && was[k].dirty ==> (k in poms <==> !StoredWithin(answers, attempt, k))
        invariant forall k :: k in was && k !in poms ==> k in acknowledged && acknowledged[k] == was[k].mark
      {
        forall k ensures StoredWithin(answers, attempt + 1, k) <==> StoredWithin(answers, attempt, k) || Stores(answers(attempt), k) {
          OneMoreAnswer(answers, attempt, k);
        }
        hide StoredWithin, Stores;
        var remaining := Commit(answers(attempt));
        if remaining == 0 {
          forall k | k in was && was[k].dirty ensures StoredWithin(answers, retries + 1, k) {
            MoreAnswers(answers, attempt + 1, retries + 1, k);
          }
          return;
        }
      }
    }

    /** Closes all managers; with auto-commit it commits up to `retries` + 1 times before it gives up,
        without it not at all. The managers in `lost` are given up with a mark that was not acknowledged:
        exactly the dirty ones that no answer stored, or without auto-commit all dirty ones. */
    method Close(autoCommit: bool, retries: nat, answers: nat -> Option<map<Slot, Verdict>>) returns (lost: set<Slot>)
      requires Valid() && request.None?
      modifies this
      ensures Valid() && poms == map[] && lost <= old(poms.Keys)
      ensures forall k :: k in old(poms) && k !in lost ==> k in acknowledged && acknowledged[k] == old(poms)[k].mark
      ensures forall k :: k in lost ==> k in acknowledged && acknowledged[k] == old(acknowledged)[k]
      ensures forall k :: k in lost <==> k in old(poms) && old(poms)[k].dirty && !(autoCommit && StoredWithin(answers, retries + 1, k))
      ensures !autoCommit ==> acknowledged == old(acknowledged)
    {
      poms := map k | k in poms :: poms[k].(done := true);
      if autoCommit { FlushAll(retries, answers); }
      lost := set k | k in poms && poms[k].dirty;
      var remaining := ReleasePOMs(true);
      assert poms.Keys == {};
    }
  }
}
