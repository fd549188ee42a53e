/** Conservation in the retry protocol: what the in-flight counter counts, and that every submitted
    message is settled exactly once. No assumption is made on the retry limit. */
module RetryLedger {
  import opened RetryModel

  /** The account a message is booked on: account k >= 0 belongs to the data message with id k, and
      account -1 counts every message, markers included. */
  ghost function Weight(m: Msg, k: int): int {
    if k < 0 || (m.Data? && m.id == k) then 1 else 0
  }

  ghost function Sum(q: seq<Msg>, k: int): int {
    if q == [] then 0 else Weight(q[0], k) + Sum(q[1..], k)
  }

  ghost function BrokerSum(b: BrokerProducer, k: int): int {
    Sum(b.bounce, k) + Sum(b.sent, k) + Sum(b.buffer, k) + Sum(b.input, k)
  }

  ghost function BrokersSum(bps: seq<BrokerProducer>, k: int): int {
    if bps == [] then 0 else BrokerSum(bps[0], k) + BrokersSum(bps[1..], k)
  }

  ghost function BuffersSum(buf: seq<seq<Msg>>, k: int): int {
    if buf == [] then 0 else Sum(buf[0], k) + BuffersSum(buf[1..], k)
  }

  ghost function Live(s: State, k: int): int {
    Sum(s.ppIn, k) + Sum(s.retryQ, k) + BuffersSum(s.buf, k) + BrokersSum(s.bps, k)
  }

  ghost function Times(ids: seq<nat>, k: int): int {
    if ids == [] then 0 else (if ids[0] == k then 1 else 0) + Times(ids[1..], k)
  }

  /** What account k shows when live and settled messages are added up; on account -1 the in-flight
      counter is taken off. */
  ghost function Account(s: State, k: int): int {
    Live(s, k) +
    if k < 0 then (if s.shutdownSent && !s.shuttingDown then 1 else 0) - s.inFlight
    else Times(s.acked, k) + Times(s.failed, k)
  }

  // ------------------------------------------------------------------------- sums

  lemma {:induction false} SumConcat(p: seq<Msg>, q: seq<Msg>, k: int)
    ensures Sum(p + q, k) == Sum(p, k) + Sum(q, k)
  {
    if p == [] {
      assert p + q == q;
    } else {
      assert (p + q)[1..] == p[1..] + q;
      SumConcat(p[1..], q, k);
    }
  }

  lemma SumOne(m: Msg, k: int)
    ensures Sum([m], k) == Weight(m, k)
  {
    assert [m][1..] == [];
  }

  lemma {:induction false} TimesConcat(p: seq<nat>, q: seq<nat>, k: int)
    ensures Times(p + q, k) == Times(p, k) + Times(q, k)
  {
    if p == [] {
      assert p + q == q;
    } else {
      assert (p + q)[1..] == p[1..] + q;
      TimesConcat(p[1..], q, k);
    }
  }

  /** Settling a batch books its ids and takes its length off the counter. */
  lemma {:induction false} SumOfIds(q: seq<Msg>, k: int)
    ensures k >= 0 ==> Times(Ids(q), k) == Sum(q, k)
    ensures k < 0 ==> Sum(q, k) == |q|
  {
    if q != [] {
      SumOfIds(q[1..], k);
      var h: seq<nat> := if q[0].Data? then [q[0].id] else [];
      TimesConcat(h, Ids(q[1..]), k);
    }
  }

  lemma {:induction false} BrokersUpdate(bps: seq<BrokerProducer>, i: nat, b: BrokerProducer, k: int)
    requires i < |bps|
    ensures BrokersSum(bps[i := b], k) == BrokersSum(bps, k) - BrokerSum(bps[i], k) + BrokerSum(b, k)
  {
    hide BrokerSum;
    if i == 0 {
      assert bps[i := b][1..] == bps[1..];
    } else {
      assert bps[i := b][1..] == bps[1..][i - 1 := b];
      BrokersUpdate(bps[1..], i - 1, b, k);
    }
  }

  lemma {:induction false} BrokersAdd(bps: seq<BrokerProducer>, b: BrokerProducer, k: int)
    ensures BrokersSum(bps + [b], k) == BrokersSum(bps, k) + BrokerSum(b, k)
  {
    hide BrokerSum;
    if bps == [] {
      assert bps + [b] == [b] && [b][1..] == [];
    } else {
      assert (bps + [b])[1..] == bps[1..] + [b];
      BrokersAdd(bps[1..], b, k);
    }
  }

  lemma {:induction false} BuffersUpdate(buf: seq<seq<Msg>>, l: nat, q: seq<Msg>, k: int)
    requires l < |buf|
    ensures BuffersSum(buf[l := q], k) == BuffersSum(buf, k) - Sum(buf[l], k) + Sum(q, k)
  {
    if l == 0 {
      assert buf[l := q][1..] == buf[1..];
    } else {
      assert buf[l := q][1..] == buf[1..][l - 1 := q];
      BuffersUpdate(buf[1..], l - 1, q, k);
    }
  }

  lemma PushSum(b: BrokerProducer, ms: seq<Msg>, k: int)
    ensures BrokerSum(Push(b, ms), k) == BrokerSum(b, k) + Sum(ms, k)
  {
    SumConcat(b.input, ms, k);
  }

  // ------------------------------------------------------------------- partition producer

  lemma ReturnErrorBooks(s: State, m: Msg, k: int)
    ensures Account(ReturnError(s, m), k) == Account(s, k) + Weight(m, k)
  {
    if m.Data? {
      TimesConcat(s.failed, [m.id], k);
      assert [m.id][1..] == [];
    }
  }

  lemma ReturnErrorsBooks(s: State, ms: seq<Msg>, k: int)
    ensures Account(ReturnErrors(s, ms), k) == Account(s, k) + Sum(ms, k)
  {
    SumOfIds(ms, k);
    TimesConcat(s.failed, Ids(ms), k);
  }

  lemma SendCurBooks(s: State, ms: seq<Msg>, k: int)
    requires Shape(s) && s.cur.Some?
    ensures Account(SendCur(s, ms), k) == Account(s, k) + Sum(ms, k)
  {
    hide BrokerSum;
    PushSum(s.bps[s.cur.value], ms, k);
    BrokersUpdate(s.bps, s.cur.value, Push(s.bps[s.cur.value], ms), k);
  }

  lemma EnsureLeaderBooks(s: State, leaders: seq<Option<nat>>, k: int)
    requires Shape(s)
    ensures Account(EnsureLeader(s, leaders), k) == Account(s, k)
  {
    if !(s.cur.Some? || leaders == [] || leaders[0].None?) {
      var i := leaders[0].value;
      SumOne(Syn, k);
      if i < |s.bps| {
        hide BrokerSum;
        PushSum(s.bps[i], [Syn], k);
        BrokersUpdate(s.bps, i, Push(s.bps[i], [Syn]), k);
      } else {
        BrokersAdd(s.bps, FreshBroker([Syn]), k);
      }
    }
  }

  lemma ForwardBooks(s: State, leaders: seq<Option<nat>>, m: Msg, k: int)
    requires Shape(s)
    ensures Account(Forward(s, leaders, m), k) == Account(s, k) + Weight(m, k)
  {
    hide Account, SendCur, ReturnError;
    EnsureLeaderBooks(s, leaders, k);
    var s1 := EnsureLeader(s, leaders);
    if s1.cur.None? {
      ReturnErrorBooks(s1, m, k);
    } else {
      SendCurBooks(s1, [m], k);
      SumOne(m, k);
    }
  }

  lemma NewHighWatermarkBooks(s: State, h: nat, k: int)
    requires Shape(s) && s.cur.Some? && 1 <= h <= s.max
    ensures Account(NewHighWatermark(s, h), k) == Account(s, k)
  {
    SendCurBooks(s, [Fin(h - 1)], k);
    SumOne(Fin(h - 1), k);
  }

  lemma EmptyBufferBooks(s: State, l: nat, k: int)
    requires l < |s.buf|
    ensures Account(s.(buf := s.buf[l := []]), k) == Account(s, k) - Sum(s.buf[l], k)
  {
    BuffersUpdate(s.buf, l, [], k);
  }

  lemma HwmFree(s: State, h: nat, k: int)
    ensures Account(s.(hwm := h), k) == Account(s, k)
  {
  }

  lemma EnsureLeaderFrame(s: State, leaders: seq<Option<nat>>)
    requires Shape(s)
    ensures EnsureLeader(s, leaders).buf == s.buf
  {
  }

  lemma FlushLevelBooks(s: State, leaders: seq<Option<nat>>, k: int)
    requires Shape(s) && s.hwm > 0
    ensures Account(FlushLevel(s, leaders), k) == Account(s, k)
  {
    var l := s.hwm - 1;
    var s0 := s.(hwm := l);
    HwmFree(s, l, k);
    EnsureLeaderBooks(s0, leaders, k);
    EnsureLeaderFrame(s0, leaders);
    hide Account, EnsureLeader;
    var s1 := EnsureLeader(s0, leaders);
    if s1.cur.None? {
      ReturnErrorsBooks(s1, s.buf[l], k);
      EmptyBufferBooks(ReturnErrors(s1, s.buf[l]), l, k);
    } else {
      SendCurBooks(s1, s.buf[l], k);
      EmptyBufferBooks(SendCur(s1, s.buf[l]), l, k);
    }
  }

  lemma {:induction false} FlushRetryBuffersBooks(s: State, leaders: seq<Option<nat>>, k: int)
    requires Shape(s) && s.hwm > 0
    ensures Account(FlushRetryBuffers(s, leaders), k) == Account(s, k)
    decreases s.hwm
  {
    hide Account, FlushLevel;
    FlushLevelBooks(s, leaders, k);
    var s1 := FlushLevel(s, leaders);
    if !(s1.expectChaser[s1.hwm] || s1.hwm == 0) { FlushRetryBuffersBooks(s1, LookupsLeft(s, leaders), k); }
  }

  lemma BufferBooks(s: State, m: Msg, k: int)
    requires Retries(m) < |s.buf|
    ensures Account(s.(buf := s.buf[Retries(m) := s.buf[Retries(m)] + [m]]), k) == Account(s, k) + Weight(m, k)
  {
    var l := Retries(m);
    SumOne(m, k);
    SumConcat(s.buf[l], [m], k);
    BuffersUpdate(s.buf, l, s.buf[l] + [m], k);
  }

  lemma FinBooks(s: State, ch: seq<bool>, m: Msg, k: int)
    requires m.Fin?
    ensures Account(s.(expectChaser := ch), k) == Account(s, k)
    ensures Account(s.(expectChaser := ch, inFlight := s.inFlight - 1), k) == Account(s, k) + Weight(m, k)
    ensures Account(s.(inFlight := s.inFlight - 1), k) == Account(s, k) + Weight(m, k)
  {
  }

  /** Dispatching a message books exactly that message. */
  lemma DispatchBooks(s: State, leaders: seq<Option<nat>>, m: Msg, k: int)
    requires Shape(s) && Retries(m) <= s.max
    ensures Account(DispatchMsg(s, leaders, m), k) == Account(s, k) + Weight(m, k)
  {
    hide Account, Forward, FlushRetryBuffers, EnsureLeader;
    var l := Retries(m);
    if l > s.hwm {
      EnsureLeaderBooks(s, leaders, k);
      var s1 := EnsureLeader(s, leaders);
      LeaderControl(s, leaders);
      if s1.cur.None? {
        ReturnErrorBooks(s1, m, k);
      } else {
        NewHighWatermarkBooks(s1, l, k);
        ForwardBooks(NewHighWatermark(s1, l), LookupsLeft(s, leaders), m, k);
      }
    } else if l < s.hwm {
      if m.Fin? { FinBooks(s, s.expectChaser[l := false], m, k); } else { BufferBooks(s, m, k); }
    } else if s.hwm > 0 && m.Fin? {
      var t := s.(expectChaser := s.expectChaser[s.hwm := false]);
      FinBooks(s, s.expectChaser[s.hwm := false], m, k);
      FlushRetryBuffersBooks(t, leaders, k);
      FinBooks(FlushRetryBuffers(t, leaders), [], m, k);
    } else {
      ForwardBooks(s, leaders, m, k);
    }
  }

  // ------------------------------------------------------------------- broker producers

  lemma ReplaceBooks(s: State, i: nat, b: BrokerProducer, k: int)
    requires i < |s.bps|
    ensures Account(s.(bps := s.bps[i := b]), k) == Account(s, k) - BrokerSum(s.bps[i], k) + BrokerSum(b, k)
  {
    hide BrokerSum;
    BrokersUpdate(s.bps, i, b, k);
  }

  lemma RetryMessageBooks(s: State, m: Msg, k: int)
    ensures Account(RetryMessage(s, m), k) == Account(s, k) + Weight(m, k)
  {
    if Retries(m) >= s.max {
      ReturnErrorBooks(s, m, k);
    } else {
      SumConcat(s.retryQ, [Bump(m)], k);
      SumOne(Bump(m), k);
    }
  }

  lemma TakeBooks(s: State, i: nat, added: bool, k: int)
    requires Shape(s) && i < |s.bps| && s.bps[i].input != []
    ensures Account(TakeInput(s, i, added), k) == Account(s, k)
  {
    var b := s.bps[i];
    var m := b.input[0];
    var b1 := b.(input := b.input[1..]);
    hide Account, RetryMessage, ReturnError;
    if m.Syn? {
      ReplaceBooks(s, i, b1.(retrying := false), k);
      SynBooks(s.(bps := s.bps[i := b1.(retrying := false)]), k);
    } else if NeedsRetry(b) {
      var b2 := if !b.closing && m.Fin? then b1.(retrying := false) else b1;
      ReplaceBooks(s, i, b2, k);
      RetryMessageBooks(s.(bps := s.bps[i := b2]), m, k);
    } else if m.Fin? {
      ReplaceBooks(s, i, b1, k);
      RetryMessageBooks(s.(bps := s.bps[i := b1]), m, k);
    } else if added {
      SumConcat(b.buffer, [m], k);
      SumOne(m, k);
      ReplaceBooks(s, i, b1.(buffer := b.buffer + [m]), k);
    } else {
      ReplaceBooks(s, i, b1, k);
      ReturnErrorBooks(s.(bps := s.bps[i := b1]), m, k);
    }
  }

  lemma SynBooks(s: State, k: int)
    ensures Account(s.(inFlight := s.inFlight - 1), k) == Account(s, k) + Weight(Syn, k)
  {
  }

  lemma AckBooks(s: State, ms: seq<Msg>, k: int)
    ensures Account(s.(acked := s.acked + Ids(ms), inFlight := s.inFlight - |ms|), k) == Account(s, k) + Sum(ms, k)
  {
    SumOfIds(ms, k);
    TimesConcat(s.acked, Ids(ms), k);
  }

  lemma ReplyBooks(s: State, i: nat, reply: Reply, k: int)
    requires Shape(s) && i < |s.bps| && s.bps[i].bounce == []
    ensures Account(HandleReply(s, i, reply), k) == Account(s, k)
  {
    hide Account, ReturnErrors;
    var b := s.bps[i];
    match reply
    case Acked =>
      ReplaceBooks(s, i, b.(sent := []), k);
      AckBooks(s.(bps := s.bps[i := b.(sent := [])]), b.sent, k);
    case Retriable =>
      if s.max == 0 {
        ReplaceBooks(s, i, b.(sent := [], abandoned := true), k);
        ReturnErrorsBooks(s.(bps := s.bps[i := b.(sent := [], abandoned := true)]), b.sent, k);
      } else {
        SumConcat(b.sent, b.buffer, k);
        ReplaceBooks(s, i, b.(bounce := b.sent + b.buffer, sent := [], buffer := [], retrying := true), k);
      }
    case Refused =>
      var b' := b.(sent := [], abandoned := b.abandoned || s.max == 0);
      ReplaceBooks(s, i, b', k);
      ReturnErrorsBooks(s.(bps := s.bps[i := b']), b.sent, k);
    case Dropped =>
      ReplaceBooks(s, i, b.(sent := []), k);
      ReturnErrorsBooks(s.(bps := s.bps[i := b.(sent := [])]), b.sent, k);
  }

  lemma BrokerStepBooks(s: State, step: Step, k: int)
    requires Enabled(s, step) && (step.Emit? || step.Flush? || step.ConnectionLost?)
    ensures Account(Apply(s, step), k) == Account(s, k)
  {
    hide Account, RetryMessage;
    var b := s.bps[step.i];
    match step {
      case Emit(i) =>
        ReplaceBooks(s, i, b.(bounce := b.bounce[1..]), k);
        RetryMessageBooks(s.(bps := s.bps[i := b.(bounce := b.bounce[1..])]), b.bounce[0], k);
      case Flush(i) =>
        ReplaceBooks(s, i, b.(sent := b.buffer, buffer := []), k);
      case ConnectionLost(i) =>
        SumConcat(b.sent, b.buffer, k);
        ReplaceBooks(s, i, b.(bounce := b.sent + b.buffer, sent := [], buffer := [], closing := true,
                              abandoned := b.abandoned || s.max == 0), k);
    }
  }

  // ---------------------------------------------------------------------- every step

  lemma FeedBooks(s: State, k: int)
    requires Enabled(s, Feed)
    ensures Account(Apply(s, Feed), k) == Account(s, k)
  {
    SumConcat(s.ppIn, [s.retryQ[0]], k);
    SumOne(s.retryQ[0], k);
  }

  lemma DispatchStepBooks(s: State, leaders: seq<Option<nat>>, k: int)
    requires Enabled(s, Dispatch(leaders))
    ensures Account(Apply(s, Dispatch(leaders)), k) == Account(s, k)
  {
    var t := s.(ppIn := s.ppIn[1..]);
    assert Account(DropAbandoned(t), k) == Account(t, k) == Account(s, k) - Weight(s.ppIn[0], k);
    hide Account, DispatchMsg;
    DispatchBooks(DropAbandoned(t), leaders, s.ppIn[0], k);
  }

  lemma SubmitBooks(s: State, accepted: bool, k: int)
    requires Enabled(s, Submit(accepted))
    ensures Account(Apply(s, Submit(accepted)), k) == Account(s, k) + if k == s.submitted then 1 else 0
  {
    var m := Data(s.submitted, 0);
    SumConcat(s.ppIn, [m], k);
    SumOne(m, k);
    TimesConcat(s.failed, [s.submitted], k);
    assert [s.submitted][1..] == [];
  }

  /** Every step leaves every account as it was; a submission opens one. */
  lemma StepBooks(s: State, step: Step, k: int)
    requires Enabled(s, step) && (s.shuttingDown ==> s.shutdownSent)
    ensures Account(Apply(s, step), k) == Account(s, k) + if step.Submit? && k == s.submitted then 1 else 0
  {
    match step
    case Submit(accepted) => SubmitBooks(s, accepted, k);
    case Feed => FeedBooks(s, k);
    case Dispatch(leaders) => DispatchStepBooks(s, leaders, k);
    case Take(i, added) => TakeBooks(s, i, added, k);
    case Respond(i, reply) => ReplyBooks(s, i, reply, k);
    case Shutdown => ControlBooks(s, step, k);
    case TakeShutdown => ControlBooks(s, step, k);
    case CloseChannels => ControlBooks(s, step, k);
    case _ => BrokerStepBooks(s, step, k);
  }

  lemma ControlBooks(s: State, step: Step, k: int)
    requires Enabled(s, step) && (step.Shutdown? || step.TakeShutdown? || step.CloseChannels?)
    ensures Account(Apply(s, step), k) == Account(s, k) + if step.Shutdown? && s.shuttingDown && k < 0 then -1 else 0
  {
  }

  ghost predicate SameControl(s: State, t: State) {
    && t.submitted == s.submitted && t.shutdownSent == s.shutdownSent
    && t.shuttingDown == s.shuttingDown && t.closed == s.closed && t.max == s.max
  }

  lemma {:induction false} FlushControl(s: State, leaders: seq<Option<nat>>)
    requires Shape(s) && s.hwm > 0
    ensures SameControl(s, FlushRetryBuffers(s, leaders))
    decreases s.hwm
  {
    var s1 := FlushLevel(s, leaders);
    assert SameControl(s, s1);
    if !(s1.expectChaser[s1.hwm] || s1.hwm == 0) {
      hide FlushLevel;
      FlushControl(s1, LookupsLeft(s, leaders));
    }
  }

  lemma LeaderControl(s: State, leaders: seq<Option<nat>>)
    requires Shape(s)
    ensures SameControl(s, EnsureLeader(s, leaders))
  {
  }

  lemma ForwardControl(s: State, leaders: seq<Option<nat>>, m: Msg)
    requires Shape(s)
    ensures SameControl(s, Forward(s, leaders, m))
  {
  }

  lemma DispatchControl(s: State, leaders: seq<Option<nat>>, m: Msg)
    requires Shape(s) && Retries(m) <= s.max
    ensures SameControl(s, DispatchMsg(s, leaders, m))
  {
    hide FlushRetryBuffers, Forward, EnsureLeader;
    if s.hwm > 0 && m.Fin? && m.retries == s.hwm {
      FlushControl(s.(expectChaser := s.expectChaser[s.hwm := false]), leaders);
    } else if Retries(m) > s.hwm {
      LeaderControl(s, leaders);
      var s1 := EnsureLeader(s, leaders);
      if s1.cur.Some? { ForwardControl(NewHighWatermark(s1, Retries(m)), LookupsLeft(s, leaders), m); }
    } else {
      ForwardControl(s, leaders, m);
    }
  }

  lemma StepControl(s: State, step: Step)
    requires Enabled(s, step)
    ensures var t := Apply(s, step);
            && t.submitted == s.submitted + (if step.Submit? then 1 else 0)
            && ((s.shuttingDown ==> s.shutdownSent) ==> (t.shuttingDown ==> t.shutdownSent))
    ensures Apply(s, step).closed <==> step.CloseChannels?
    ensures step.CloseChannels? ==> Apply(s, step).inFlight == 0 && Apply(s, step).shutdownSent
  {
    if step.Dispatch? {
      DispatchControl(DropAbandoned(s.(ppIn := s.ppIn[1..])), step.leaders, s.ppIn[0]);
      hide DispatchMsg;
    }
  }

  // ------------------------------------------------------------------------ theorems

  ghost predicate Balanced(s: State) {
    && (forall k :: -1 <= k ==> Account(s, k) == if 0 <= k < s.submitted then 1 else 0)
    && (s.shuttingDown ==> s.shutdownSent)
    && (s.closed ==> s.shutdownSent && s.inFlight == 0)
  }

  lemma {:induction false} EmptyBuffers(buf: seq<seq<Msg>>, k: int)
    requires forall l :: 0 <= l < |buf| ==> buf[l] == []
    ensures BuffersSum(buf, k) == 0
  {
    if buf != [] { EmptyBuffers(buf[1..], k); }
  }

  lemma InitBalanced(max: nat, prefetched: bool)
    ensures Balanced(Init(max, prefetched))
  {
    var s := Init(max, prefetched);
    forall k | -1 <= k ensures Account(s, k) == 0 {
      EmptyBuffers(s.buf, k);
      SumOne(Syn, k);
      if prefetched {
        assert s.bps == [FreshBroker([Syn])];
        assert s.bps[1..] == [];
        assert BrokerSum(s.bps[0], k) == Weight(Syn, k);
        assert BrokersSum(s.bps, k) == Weight(Syn, k);
      } else {
        assert BrokersSum(s.bps, k) == 0;
      }
      assert Live(s, k) == if prefetched then Weight(Syn, k) else 0;
    }
  }

  lemma {:induction false} RunBalanced(s: State, steps: seq<Step>)
    requires Balanced(s) && ValidRun(s, steps)
    ensures Balanced(Run(s, steps))
    decreases |steps|
  {
    if steps != [] {
      var t := Apply(s, steps[0]);
      StepControl(s, steps[0]);
      forall k | -1 <= k ensures Account(t, k) == if 0 <= k < t.submitted then 1 else 0 {
        StepBooks(s, steps[0], k);
      }
      hide Account, Apply;
      RunBalanced(t, steps[1..]);
    }
  }

  /** In every reachable state the in-flight counter is the number of live data, syn, fin and
      shutdown messages, and each submitted message is live, acknowledged or failed, exactly once
      in all; nothing that was not submitted is any of these. */
  lemma SettlementConserved(max: nat, prefetched: bool, steps: seq<Step>, k: nat)
    requires ValidRun(Init(max, prefetched), steps)
    ensures var s := Run(Init(max, prefetched), steps);
            && s.inFlight == Live(s, -1) + (if s.shutdownSent && !s.shuttingDown then 1 else 0)
            && Live(s, k) + Times(s.acked, k) + Times(s.failed, k) == if k < s.submitted then 1 else 0
  {
    InitBalanced(max, prefetched);
    RunBalanced(Init(max, prefetched), steps);
    var s := Run(Init(max, prefetched), steps);
    assert Account(s, -1) == 0;
    assert Account(s, k) == if k < s.submitted then 1 else 0;
  }

  lemma {:induction false} SumNonNegative(q: seq<Msg>, k: int)
    ensures 0 <= Sum(q, k)
    ensures k < 0 ==> Sum(q, k) == |q|
  {
    if q != [] { SumNonNegative(q[1..], k); }
  }

  lemma {:induction false} NoBrokerMessages(bps: seq<BrokerProducer>, i: nat)
    requires i < |bps|
    ensures 0 <= BrokerSum(bps[i], -1) <= BrokersSum(bps, -1)
    ensures BrokerSum(bps[i], -1) == |bps[i].bounce| + |bps[i].sent| + |bps[i].buffer| + |bps[i].input|
  {
    forall q: seq<Msg> ensures Sum(q, -1) == |q| { SumNonNegative(q, -1); }
    BrokersNonNegative(bps);
    if i > 0 {
      NoBrokerMessages(bps[1..], i - 1);
    } else {
      BrokersNonNegative(bps[1..]);
    }
  }

  lemma {:induction false} BrokersNonNegative(bps: seq<BrokerProducer>)
    ensures 0 <= BrokersSum(bps, -1)
  {
    if bps != [] {
      forall q: seq<Msg> ensures Sum(q, -1) == |q| { SumNonNegative(q, -1); }
      BrokersNonNegative(bps[1..]);
    }
  }

  lemma {:induction false} BuffersCount(buf: seq<seq<Msg>>, l: nat)
    ensures 0 <= BuffersSum(buf, -1)
    ensures l < |buf| ==> |buf[l]| <= BuffersSum(buf, -1)
  {
    if buf != [] {
      SumNonNegative(buf[0], -1);
      BuffersCount(buf[1..], if l > 0 then l - 1 else 0);
    }
  }

  /** The channels are closed only when no message is live anywhere, and then every submitted
      message has been returned once: as a success or as an error. */
  lemma ClosedMeansSettled(max: nat, prefetched: bool, steps: seq<Step>, k: nat, i: nat, l: nat)
    requires ValidRun(Init(max, prefetched), steps)
    ensures var s := Run(Init(max, prefetched), steps); s.closed ==>
            && (k < s.submitted ==> Times(s.acked, k) + Times(s.failed, k) == 1)
            && s.ppIn == [] && s.retryQ == []
            && (l < |s.buf| ==> s.buf[l] == [])
            && (i < |s.bps| ==> s.bps[i].bounce == [] && s.bps[i].sent == [] && s.bps[i].buffer == [] && s.bps[i].input == [])
  {
    var s := Run(Init(max, prefetched), steps);
    InitBalanced(max, prefetched);
    RunBalanced(Init(max, prefetched), steps);
    if s.closed {
      SumNonNegative(s.ppIn, -1);
      SumNonNegative(s.retryQ, -1);
      BrokersNonNegative(s.bps);
      BuffersCount(s.buf, l);
      if i < |s.bps| { NoBrokerMessages(s.bps, i); }
      assert Account(s, -1) == 0;
      assert Account(s, k) == if k < s.submitted then 1 else 0;
      NothingLive(s, k);
    }
  }

  /** With no message live at all, none with id k is. */
  lemma NothingLive(s: State, k: nat)
    requires Live(s, -1) == 0
    ensures Live(s, k) == 0
  {
    SumBound(s.ppIn, k);
    SumBound(s.retryQ, k);
    BuffersBound(s.buf, k);
    BrokersBound(s.bps, k);
  }

  lemma {:induction false} SumBound(q: seq<Msg>, k: nat)
    ensures 0 <= Sum(q, k) <= Sum(q, -1)
  {
    if q != [] { SumBound(q[1..], k); }
  }

  lemma {:induction false} BuffersBound(buf: seq<seq<Msg>>, k: nat)
    ensures 0 <= BuffersSum(buf, k) <= BuffersSum(buf, -1)
  {
    if buf != [] {
      SumBound(buf[0], k);
      BuffersBound(buf[1..], k);
    }
  }

  lemma {:induction false} BrokersBound(bps: seq<BrokerProducer>, k: nat)
    ensures 0 <= BrokersSum(bps, k) <= BrokersSum(bps, -1)
  {
    if bps != [] {
      SumBound(bps[0].bounce, k);
      SumBound(bps[0].sent, k);
      SumBound(bps[0].buffer, k);
      SumBound(bps[0].input, k);
      BrokersBound(bps[1..], k);
    }
  }
}
