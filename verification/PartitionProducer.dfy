/** partitionProducer as the object it is: fields updated in place, one dispatched message at a
    time. Each method does to the object exactly what the step system of RetryModel says. */
module PartitionProducers {
  import opened RetryModel

  class PartitionProducer {
    var highWatermark: nat
    var retryBuf: seq<seq<Msg>>
    var expectChaser: seq<bool>
    var brokerProducer: Option<nat>
    /** The channels, broker producers and counters the partition producer shares with the other
        goroutines; its own fields are not read from here. */
    var shared: State

    ghost function Abs(): State
      reads this
    {
      shared.(hwm := highWatermark, buf := retryBuf, expectChaser := expectChaser, cur := brokerProducer)
    }

    ghost predicate Valid()
      reads this
    {
      Shape(Abs())
    }

    constructor (max: nat, prefetched: bool)
      ensures Valid() && Abs() == Init(max, prefetched)
    {
      var s := Init(max, prefetched);
      highWatermark, retryBuf, expectChaser, brokerProducer := s.hwm, s.buf, s.expectChaser, s.cur;
      shared := s;
    }

    method Send(i: nat, m: Msg)
      requires Valid() && brokerProducer == Some(i)
      modifies this`shared
      ensures Valid() && Abs() == SendCur(old(Abs()), [m])
    {
      var b := shared.bps[i];
      shared := shared.(bps := shared.bps[i := b.(input := b.input + [m])]);
    }

    /** `leader` is what the metadata lookup finds: the broker producer of the leader, or nothing. */
    method UpdateLeader(leader: Option<nat>) returns (ok: bool)
      requires Valid() && brokerProducer.None?
      modifies this`shared, this`brokerProducer
      ensures Valid() && ok == leader.Some?
      ensures Abs() == EnsureLeader(old(Abs()), [leader])
    {
      if leader.None? { return false; }
      var i := leader.value;
      if i >= |shared.bps| {
        i := |shared.bps|;
        shared := shared.(bps := shared.bps + [FreshBroker([])]);
      }
      shared := shared.(inFlight := shared.inFlight + 1);
      brokerProducer := Some(i);
      Send(i, Syn);
      ok := true;
      assert Push(FreshBroker([]), [Syn]) == FreshBroker([Syn]);
    }

    method ReturnOne(m: Msg)
      requires Valid()
      modifies this`shared
      ensures Valid() && Abs() == ReturnError(old(Abs()), m)
    {
      if m.Data? {
        shared := shared.(failed := shared.failed + [m.id]);
      } else {
        shared := shared.(leakedFins := shared.leakedFins + 1);
      }
      shared := shared.(inFlight := shared.inFlight - 1);
    }
  
    method ReturnBatch(ms: seq<Msg>)
      requires Valid()
      modifies this`shared
      ensures Valid() && Abs() == ReturnErrors(old(Abs()), ms)
    {
      hide ReturnErrors, ReturnError;
      ghost var s := Abs();
      var i := 0;
      assert ms[..0] == [];
      ReturnNone(s);
      while i < |ms|
        invariant i <= |ms| && Valid()
        invariant Abs() == ReturnErrors(s, ms[..i])
      {
        ReturnOneMore(s, ms[..i], ms[i]);
        assert ms[..i + 1] == ms[..i] + [ms[i]];
        ReturnOne(ms[i]);
        i := i + 1;
      }
      assert ms[..i] == ms;
    }

    method SendBatch(i: nat, ms: seq<Msg>)
      requires Valid() && brokerProducer == Some(i)
      modifies this`shared
      ensures Valid() && Abs() == SendCur(old(Abs()), ms)
    {
      ghost var s := Abs();
      assert SendCur(s, []) == s by { assert s.bps[i].input + [] == s.bps[i].input; }
      var k := 0;
      while k < |ms|
        invariant k <= |ms| && Valid()
        invariant Abs() == SendCur(s, ms[..k])
      {
        assert ms[..k + 1] == ms[..k] + [ms[k]];
        assert s.bps[i].input + ms[..k + 1] == s.bps[i].input + ms[..k] + [ms[k]];
        Send(i, ms[k]);
        k := k + 1;
      }
      assert ms[..k] == ms;
    }

    /** A fin goes to the broker producer in use, which is then given up. */
    method NewHighWatermark(h: nat)
      requires Valid() && brokerProducer.Some? && 1 <= h <= shared.max
      modifies this
      ensures Valid() && Abs() == RetryModel.NewHighWatermark(old(Abs()), h)
    {
      highWatermark := h;
      expectChaser := expectChaser[h := true];
      shared := shared.(inFlight := shared.inFlight + 1, finVia := shared.finVia[h := brokerProducer.value]);
      Send(brokerProducer.value, Fin(h - 1));
      brokerProducer := None;
    }

    /** Looks a leader up if no broker producer is selected; `rest` are the unused lookups. */
    method NeedLeader(leaders: seq<Option<nat>>) returns (rest: seq<Option<nat>>)
      requires Valid()
      modifies this`shared, this`brokerProducer
      ensures Valid() && Abs() == EnsureLeader(old(Abs()), leaders) && rest == LookupsLeft(old(Abs()), leaders)
    {
      rest := leaders;
      if brokerProducer.None? && leaders != [] {
        var _ := UpdateLeader(leaders[0]);
        rest := leaders[1..];
      }
    }

    method FlushOne(leaders: seq<Option<nat>>) returns (rest: seq<Option<nat>>)
      requires Valid() && highWatermark > 0
      modifies this
      ensures Valid() && Abs() == FlushLevel(old(Abs()), leaders) && rest == LookupsLeft(old(Abs()), leaders)
    {
      hide EnsureLeader, SendCur, ReturnErrors;
      highWatermark := highWatermark - 1;
      rest := NeedLeader(leaders);
      if brokerProducer.None? {
        ReturnBatch(retryBuf[highWatermark]);
      } else {
        SendBatch(brokerProducer.value, retryBuf[highWatermark]);
      }
      retryBuf := retryBuf[highWatermark := []];
    }

    /** Steps down one level at a time, flushing each buffer, until a level still expects its fin
        or normal operation resumes. `leaders` are the outcomes of the lookups this may need. */
    method FlushRetryBuffers(leaders: seq<Option<nat>>)
      requires Valid() && highWatermark > 0
      modifies this
      ensures Valid() && Abs() == RetryModel.FlushRetryBuffers(old(Abs()), leaders)
    {
      hide FlushLevel;
      ghost var s := Abs();
      var ls := FlushOne(leaders);
      while !expectChaser[highWatermark] && highWatermark > 0
        invariant Valid()
        invariant RetryModel.FlushRetryBuffers(s, leaders) ==
                    if expectChaser[highWatermark] || highWatermark == 0 then Abs() else RetryModel.FlushRetryBuffers(Abs(), ls)
        decreases highWatermark
      {
        ls := FlushOne(ls);
      }
    }

    /** Hands `m` to the current broker producer, looking one up if there is none. */
    method Forward(m: Msg, leaders: seq<Option<nat>>)
      requires Valid()
      modifies this
      ensures Valid() && Abs() == RetryModel.Forward(old(Abs()), leaders, m)
    {
      var _ := NeedLeader(leaders);
      if brokerProducer.None? {
        ReturnOne(m);
      } else {
        Send(brokerProducer.value, m);
      }
    }

    /** The first message of a new, higher retry level. */
    method Raise(m: Msg, leaders: seq<Option<nat>>)
      requires Valid() && highWatermark < Retries(m) <= shared.max
      modifies this
      ensures Valid() && Abs() == DispatchMsg(old(Abs()), leaders, m)
    {
      hide RetryModel.Forward, RetryModel.FlushRetryBuffers, RetryModel.NewHighWatermark, EnsureLeader, ReturnError;
      EnsureLeaderMax(Abs(), leaders);
      var rest := NeedLeader(leaders);
      if brokerProducer.None? {
        ReturnOne(m);
      } else {
        NewHighWatermark(Retries(m));
        Forward(m, rest);
      }
    }

    /** A message of a lower level waits, unless it is the fin of that level. */
    method Hold(m: Msg)
      requires Valid() && Retries(m) < highWatermark
      modifies this
      ensures Valid() && forall leaders :: Abs() == DispatchMsg(old(Abs()), leaders, m)
    {
      hide RetryModel.Forward, RetryModel.FlushRetryBuffers, EnsureLeader;
      var l := Retries(m);
      if m.Fin? {
        expectChaser := expectChaser[l := false];
        shared := shared.(inFlight := shared.inFlight - 1);
      } else {
        retryBuf := retryBuf[l := retryBuf[l] + [m]];
      }
    }

    /** The fin of the current level ends that level. */
    method Finish(m: Msg, leaders: seq<Option<nat>>)
      requires Valid() && m.Fin? && m.retries == highWatermark > 0
      modifies this
      ensures Valid() && Abs() == DispatchMsg(old(Abs()), leaders, m)
    {
      hide RetryModel.Forward, RetryModel.FlushRetryBuffers, EnsureLeader;
      expectChaser := expectChaser[highWatermark := false];
      FlushRetryBuffers(leaders);
      shared := shared.(inFlight := shared.inFlight - 1);
    }

    /** One turn of the dispatch loop. */
    method Dispatch(m: Msg, leaders: seq<Option<nat>>)
      requires Valid() && Retries(m) <= shared.max
      modifies this
      ensures Valid() && Abs() == DispatchMsg(DropAbandoned(old(Abs())), leaders, m)
    {
      hide RetryModel.Forward, RetryModel.FlushRetryBuffers, EnsureLeader;
      if brokerProducer.Some? && shared.bps[brokerProducer.value].abandoned {
        brokerProducer := None;
      }
      if Retries(m) > highWatermark {
        Raise(m, leaders);
      } else if Retries(m) < highWatermark {
        Hold(m);
      } else if highWatermark > 0 && m.Fin? {
        Finish(m, leaders);
      } else {
        Forward(m, leaders);
      }
    }
  }

  lemma EnsureLeaderMax(s: State, leaders: seq<Option<nat>>)
    requires Shape(s)
    ensures EnsureLeader(s, leaders).max == s.max
  {
  }

  lemma ReturnNone(s: State)
    ensures ReturnErrors(s, []) == s
  {
    assert s.failed + Ids([]) == s.failed;
  }

  lemma ReturnOneMore(s: State, ms: seq<Msg>, m: Msg)
    ensures ReturnErrors(s, ms + [m]) == ReturnError(ReturnErrors(s, ms), m)
  {
    IdsSnoc(ms, m);
    hide Ids;
    assert m.Data? ==> s.failed + Ids(ms) + [m.id] == s.failed + (Ids(ms) + [m.id]);
  }

  lemma {:induction false} IdsSnoc(q: seq<Msg>, m: Msg)
    ensures Ids(q + [m]) == if m.Data? then Ids(q) + [m.id] else Ids(q)
  {
    if q == [] {
      assert q + [m] == [m] && [m][1..] == [];
    } else {
      assert (q + [m])[1..] == q[1..] + [m] && (q + [m])[0] == q[0];
      IdsSnoc(q[1..], m);
      var h: seq<nat> := if q[0].Data? then [q[0].id] else [];
      assert Ids(q + [m]) == h + Ids(q[1..] + [m]) && Ids(q) == h + Ids(q[1..]);
    }
  }
}
