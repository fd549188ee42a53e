/** The retry levels over whole runs. */
module RetryLevels {
  import opened RetryModel
  import opened RetryInvariant
  import opened RetryBrokerRun
  import opened RetryDispatchRun
  import opened RetryTheorems

  ghost function CountFin(q: seq<Msg>, f: nat): nat {
    if q == [] then 0 else (if q[0] == Fin(f) then 1 else 0) + CountFin(q[1..], f)
  }

  ghost function CountFinBrokers(bps: seq<BrokerProducer>, f: nat): nat {
    if bps == [] then 0 else CountFin(Pipe(bps[0]), f) + CountFinBrokers(bps[1..], f)
  }

  /** The fins on their way that will arrive as level `f`: a broker producer raises the level when it
      sends a fin back. */
  ghost function FinsOut(s: State, f: nat): nat
    requires f > 0
  {
    CountFin(s.ppIn + s.retryQ, f) + CountFinBrokers(s.bps, f - 1)
  }

  lemma {:induction false} CountOnce(q: seq<Msg>, f: nat)
    requires forall j, k :: 0 <= j < k < |q| && q[j] == Fin(f) ==> q[k] != Fin(f)
    ensures CountFin(q, f) == if Fin(f) in q then 1 else 0
  {
    if q != [] {
      assert q == [q[0]] + q[1..];
      CountOnce(q[1..], f);
    }
  }

  /** At most one broker producer holds the fin, and it holds it once. */
  lemma {:induction false} CountOnceBrokers(bps: seq<BrokerProducer>, f: nat)
    requires forall i, j, k :: 0 <= i < |bps| && 0 <= j < k < |Pipe(bps[i])| && Pipe(bps[i])[j] == Fin(f) ==> Pipe(bps[i])[k] != Fin(f)
    requires forall i, j :: 0 <= i < j < |bps| && Fin(f) in Pipe(bps[i]) ==> Fin(f) !in Pipe(bps[j])
    ensures CountFinBrokers(bps, f) == if exists i :: 0 <= i < |bps| && Fin(f) in Pipe(bps[i]) then 1 else 0
  {
    if bps != [] {
      hide Pipe;
      CountOnce(Pipe(bps[0]), f);
      CountOnceBrokers(bps[1..], f);
      assert forall i :: 0 < i < |bps| ==> bps[i] == bps[1..][i - 1];
      if Fin(f) !in Pipe(bps[0]) && exists i :: 0 <= i < |bps| && Fin(f) in Pipe(bps[i]) {
        var i :| 0 <= i < |bps| && Fin(f) in Pipe(bps[i]);
        assert bps[1..][i - 1] == bps[i];
      }
    }
  }

  lemma FinInPipe(b: BrokerProducer, f: nat)
    requires f > 0
    ensures Fin(f) in Bumped(Pipe(b)) <==> Fin(f - 1) in Pipe(b)
  {
    var p := Pipe(b);
    if Fin(f - 1) in p {
      var j :| 0 <= j < |p| && p[j] == Fin(f - 1);
      assert Bumped(p)[j] == Fin(f);
    }
    if Fin(f) in Bumped(p) {
      var j :| 0 <= j < |p| && Bumped(p)[j] == Fin(f);
      assert p[j] == Fin(f - 1);
    }
  }

  lemma QueueFins(s: State, f: nat)
    requires FlushInv(s) && 0 < f <= s.max
    ensures CountFin(s.ppIn + s.retryQ, f) == if Fin(f) in s.ppIn + s.retryQ then 1 else 0
  {
    hide Levels, Sorted, Lines, Falls, Visits;
    assert FinsDistinct(ViewOf(s).q);
    CountOnce(s.ppIn + s.retryQ, f);
  }

  lemma BrokerFins(s: State, f: nat)
    requires FlushInv(s) && 0 < f <= s.max
    ensures CountFinBrokers(s.bps, f - 1) == if exists i :: 0 <= i < |s.bps| && Fin(f) in ViewOf(s).us[i] then 1 else 0
  {
    hide Levels, Sorted, Lines, Falls, Visits;
    var v := ViewOf(s);
    forall i | 0 <= i < |s.bps| ensures Fin(f) in v.us[i] <==> Fin(f - 1) in Pipe(s.bps[i]) {
      FinInPipe(s.bps[i], f);
    }
    forall i, j, k | 0 <= i < |s.bps| && 0 <= j < k < |Pipe(s.bps[i])| && Pipe(s.bps[i])[j] == Fin(f - 1)
      ensures Pipe(s.bps[i])[k] != Fin(f - 1)
    {
      assert OneFin(v.us[i]) && v.us[i] == Bumped(Pipe(s.bps[i]));
    }
    CountOnceBrokers(s.bps, f - 1);
  }

  lemma OneFinPerLevel(s: State, f: nat)
    requires FlushInv(s) && 0 < f <= s.max
    ensures FinsOut(s, f) == if s.expectChaser[f] then 1 else 0
  {
    hide Levels, Sorted, Lines, Falls, Visits, FinOrder, FinAlone;
    QueueFins(s, f);
    BrokerFins(s, f);
    assert Fins(ViewOf(s));
  }

  ghost predicate LevelsKept(s: State)
    requires Shape(s)
  {
    && (s.hwm == 0 || s.expectChaser[s.hwm])
    && (forall l :: s.hwm < l <= s.max ==> !s.expectChaser[l])
    && !s.expectChaser[0]
    && (forall l :: s.hwm <= l <= s.max ==> s.buf[l] == [])
    && (forall f :: 0 < f <= s.max ==> FinsOut(s, f) == if s.expectChaser[f] then 1 else 0)
    && s.leakedFins == 0
  }

  // ------------------------------------------------------------------- without retries

  ghost predicate QuietBroker(b: BrokerProducer) {
    AllData(b.bounce) && AllData(b.sent) && AllData(b.buffer) && forall m :: m in b.input ==> !m.Fin?
  }

  /** With retries turned off nothing leaves level zero, and nobody sends a fin. */
  ghost predicate Quiet(s: State) {
    && Shape(s) && s.max == 0 && s.retryQ == [] && s.expectChaser == [false] && s.buf == [[]] && s.leakedFins == 0
    && (forall m :: m in s.ppIn ==> m.Data? && m.retries == 0)
    && (forall i :: 0 <= i < |s.bps| ==> QuietBroker(s.bps[i]))
  }

  lemma QuietReplace(s: State, i: nat, b: BrokerProducer)
    requires Quiet(s) && i < |s.bps| && QuietBroker(b)
    ensures Quiet(s.(bps := s.bps[i := b]))
  {
    hide QuietBroker;
  }

  lemma QuietLeader(s: State, leaders: seq<Option<nat>>)
    requires Quiet(s)
    ensures Quiet(EnsureLeader(s, leaders))
  {
    if s.cur.None? && leaders != [] && leaders[0].Some? {
      var i := leaders[0].value;
      if i < |s.bps| { QuietReplace(s, i, Push(s.bps[i], [Syn])); }
    }
  }

  lemma QuietForward(s: State, leaders: seq<Option<nat>>, m: Msg)
    requires Quiet(s) && m.Data?
    ensures Quiet(Forward(s, leaders, m))
  {
    QuietLeader(s, leaders);
    var s1 := EnsureLeader(s, leaders);
    hide EnsureLeader;
    if s1.cur.Some? { QuietReplace(s1, s1.cur.value, Push(s1.bps[s1.cur.value], [m])); }
  }

  lemma QuietDispatch(s: State, leaders: seq<Option<nat>>)
    requires Quiet(s) && Enabled(s, Dispatch(leaders))
    ensures Quiet(Apply(s, Dispatch(leaders)))
  {
    var m := s.ppIn[0];
    assert m in s.ppIn;
    var t := DropAbandoned(s.(ppIn := s.ppIn[1..]));
    assert Quiet(t);
    QuietForward(t, leaders, m);
    hide Forward, Quiet;
    assert DispatchMsg(t, leaders, m) == Forward(t, leaders, m) by { QuietLevel(t, m); }
  }

  lemma QuietLevel(s: State, m: Msg)
    requires Quiet(s) && m.Data? && m.retries == 0
    ensures s.hwm == 0 && Retries(m) == 0
  {
  }

  lemma QuietRespond(s: State, i: nat, reply: Reply)
    requires Quiet(s) && Enabled(s, Respond(i, reply))
    ensures Quiet(Apply(s, Respond(i, reply)))
  {
    IdsOfData(s.bps[i].sent);
  }

  lemma QuietReturn(s: State, m: Msg)
    requires Quiet(s) && m.Data?
    ensures Quiet(RetryMessage(s, m)) && Quiet(ReturnError(s, m))
  {
  }

  lemma QuietTake(s: State, i: nat, added: bool)
    requires Quiet(s) && Enabled(s, Take(i, added))
    ensures Quiet(Apply(s, Take(i, added)))
  {
    var b := s.bps[i];
    var m := b.input[0];
    assert m in b.input;
    var b1 := b.(input := b.input[1..]);
    assert QuietBroker(b1);
    QuietReplace(s, i, b1);
    QuietReplace(s, i, b1.(retrying := false));
    if m.Data? {
      QuietReplace(s, i, b1.(buffer := b.buffer + [m]));
      QuietReturn(s.(bps := s.bps[i := b1]), m);
    }
    hide QuietBroker, RetryMessage, ReturnError;
  }

  lemma QuietStep(s: State, step: Step)
    requires Quiet(s) && Enabled(s, step)
    ensures Quiet(Apply(s, step))
  {
    match step {
      case Dispatch(leaders) => QuietDispatch(s, leaders);
      case Respond(i, reply) => QuietRespond(s, i, reply);
      case Take(i, added) => QuietTake(s, i, added);
      case Emit(i) => assert s.bps[i].bounce[0] in s.bps[i].bounce;
      case _ =>
    }
  }

  lemma {:induction false} QuietRun(s: State, steps: seq<Step>)
    requires Quiet(s) && ValidRun(s, steps)
    ensures Quiet(Run(s, steps))
    decreases |steps|
  {
    hide Quiet;
    if steps != [] {
      QuietStep(s, steps[0]);
      QuietRun(Apply(s, steps[0]), steps[1..]);
    }
  }

  // ---------------------------------------------------------------------------- all runs

  /** In every reachable state hwm is the highest level that expects a fin (0 if none does), the
      buffers from hwm up are empty, a level expects a fin exactly while one fin of that level is
      on its way, and no fin has ever been handed to the user. */
  lemma RetryLevelInvariant(max: nat, prefetched: bool, steps: seq<Step>)
    requires ValidRun(Init(max, prefetched), steps)
    ensures var s := Run(Init(max, prefetched), steps); Shape(s) && LevelsKept(s)
  {
    var s := Run(Init(max, prefetched), steps);
    if max == 0 { QuietRun(Init(max, prefetched), steps); return; }
    assert Inv(s) by {
      InitInv(max, prefetched);
      RunKeeps(Init(max, prefetched), steps);
    }
    hide ViewInv;
    LevelsOf(ViewOf(s));
    forall f | 0 < f <= s.max ensures FinsOut(s, f) == if s.expectChaser[f] then 1 else 0 {
      OneFinPerLevel(s, f);
    }
  }

  /** In every reachable state the next message to dispatch indexes retryState in range, and a fin
      only ever reaches a broker producer that is sending the partition's messages back. */
  lemma DispatchNeverStuck(max: nat, prefetched: bool, steps: seq<Step>, i: nat)
    requires ValidRun(Init(max, prefetched), steps)
    ensures var s := Run(Init(max, prefetched), steps);
            && (s.ppIn != [] ==> Retries(s.ppIn[0]) <= s.max)
            && (i < |s.bps| && s.bps[i].input != [] && s.bps[i].input[0].Fin? ==> NeedsRetry(s.bps[i]))
  {
    var s := Run(Init(max, prefetched), steps);
    if max == 0 { QuietRun(Init(max, prefetched), steps); return; }
    assert Inv(s) by {
      InitInv(max, prefetched);
      RunKeeps(Init(max, prefetched), steps);
    }
    hide ViewInv;
    if s.ppIn != [] { FinLevel(s, s.ppIn[0]); }
    if i < |s.bps| {
      assert Health(s.bps[i], s.max);
      assert s.bps[i].input != [] ==> s.bps[i].input[0] in s.bps[i].input;
    }
  }
}
