/** Every step of the partition producer keeps the invariant. A state in which the dispatched
    message is still at the head of the input stands for the state during its dispatch. */
module RetryDispatchRun {
  import opened RetryModel
  import opened RetryInvariant
  import opened RetryDispatchSteps
  import opened RetryBrokerRun

  lemma PushUs(bps: seq<BrokerProducer>, i: nat, ms: seq<Msg>)
    requires i < |bps|
    ensures Us(bps[i := Push(bps[i], ms)]) == Us(bps)[i := Us(bps)[i] + Bumped(ms)]
  {
    var b := Push(bps[i], ms);
    UsUpdate(bps, i, b);
    assert Pipe(b) == Pipe(bps[i]) + ms;
    assert Bumped(Pipe(b)) == Bumped(Pipe(bps[i])) + Bumped(ms);
  }

  // ------------------------------------------------------------------- updateLeader

  /** With no broker producer selected, none holds unacknowledged messages. */
  lemma NoneHolds(s: State, i: nat)
    requires FlushInv(s) && s.cur.None? && i < |s.bps|
    ensures s.bps[i].sent == [] && s.bps[i].buffer == []
  {
    hide ViewInv, OfVisit;
    var b := s.bps[i];
    if b.sent + b.buffer != [] {
      var k := |b.bounce|;
      assert Pipe(b)[k] in b.sent + b.buffer;
      HealthyIsOpen(s, i, k);
    }
  }

  lemma OpenLeaderView(s: State, i: nat)
    requires Shape(s)
    ensures ViewOf(OpenLeader(s, i)) == OpenQ(ViewOf(s), i)
  {
    assert Bumped([Syn]) == [Syn];
    if i < |s.bps| { PushUs(s.bps, i, [Syn]); }
    else {
      var b := FreshBroker([Syn]);
      assert Pipe(b) == [Syn];
      assert Us(s.bps + [b]) == Us(s.bps) + [[Syn]];
    }
  }

  lemma NoneReturned(s: State)
    requires FlushInv(s) && s.cur.None?
    ensures forall x :: x in s.ppIn + s.retryQ ==> !OfVisit(x, s.expectChaser, |s.expectChaser|)
  {
    NoOpenVisit(ViewOf(s));
  }

  lemma OpenHealth(b: BrokerProducer, max: nat)
    requires Health(b, max) && b.sent == [] && b.buffer == []
    ensures Health(Push(b, [Syn]), max)
  {
  }

  lemma OpenLeaderHealth(s: State, i: nat)
    requires FlushInv(s) && s.cur.None?
    ensures var t := OpenLeader(s, i); forall j :: 0 <= j < |t.bps| ==> Health(t.bps[j], t.max)
  {
    hide ViewInv, BrokenIfReturned, Health;
    var t := OpenLeader(s, i);
    forall j | 0 <= j < |t.bps| ensures Health(t.bps[j], t.max) {
      if j < |s.bps| {
        NoneHolds(s, j);
        OpenHealth(s.bps[j], s.max);
      } else {
        FreshHealth(s.max);
      }
    }
  }

  lemma FreshHealth(max: nat)
    ensures Health(FreshBroker([Syn]), max)
  {
  }

  lemma OpenLeaderKeeps(s: State, i: nat)
    requires FlushInv(s) && s.cur.None?
    ensures FlushInv(OpenLeader(s, i))
  {
    hide ViewInv, OfVisit, Health;
    OpenLeaderView(s, i);
    OpenQKeeps(ViewOf(s), i);
    NoneReturned(s);
    OpenLeaderHealth(s, i);
  }

  lemma EnsureLeaderKeeps(s: State, leaders: seq<Option<nat>>)
    requires FlushInv(s)
    ensures FlushInv(EnsureLeader(s, leaders))
  {
    hide FlushInv;
    if !(s.cur.Some? || leaders == [] || leaders[0].None?) { OpenLeaderKeeps(s, leaders[0].value); }
  }

  // ------------------------------------------------------------- sending to the leader

  /** Adding data to the current broker producer's input harms nobody's health. */
  lemma SendCurHealth(s: State, ms: seq<Msg>)
    requires Shape(s) && s.cur.Some? && AllData(ms)
    requires forall i :: 0 <= i < |s.bps| ==> Health(s.bps[i], s.max)
    ensures var t := SendCur(s, ms); forall i :: 0 <= i < |t.bps| ==> Health(t.bps[i], t.max)
  {
  }

  lemma HeadView(s: State, m: Msg)
    requires Shape(s) && s.cur.Some?
    ensures var h := s.(ppIn := [m] + s.ppIn);
            ViewOf(h).q != [] && ViewOf(h).q[0] == m && ViewOf(SendCur(s, [m])) == AppendU(DropQ(ViewOf(h)), [Bump(m)])
  {
    PushUs(s.bps, s.cur.value, [m]);
    assert Bumped([m]) == [Bump(m)];
    assert (s.ppIn + s.retryQ) == ([m] + s.ppIn + s.retryQ)[1..];
  }

  lemma SendHeadKeeps(s: State, m: Msg)
    requires FlushInv(s.(ppIn := [m] + s.ppIn)) && s.cur.Some? && m.Data? && m.retries == s.hwm
    ensures FlushInv(SendCur(s, [m]))
  {
    hide ViewInv, OfVisit, Health;
    var h := s.(ppIn := [m] + s.ppIn);
    HeadView(s, m);
    SendQKeeps(ViewOf(h));
    SendCurHealth(s, [m]);
    assert forall x :: x in s.ppIn + s.retryQ ==> x in h.ppIn + h.retryQ;
  }

  lemma FailHeadKeeps(s: State, m: Msg)
    requires FlushInv(s.(ppIn := [m] + s.ppIn)) && m.Data?
    ensures FlushInv(ReturnError(s, m))
  {
    hide ViewInv, OfVisit, Health;
    var h := s.(ppIn := [m] + s.ppIn);
    assert (s.ppIn + s.retryQ) == (h.ppIn + h.retryQ)[1..];
    assert ViewOf(ReturnError(s, m)) == DropQ(ViewOf(h));
    DropQKeeps(ViewOf(h));
    assert forall x :: x in s.ppIn + s.retryQ ==> x in h.ppIn + h.retryQ;
  }

  lemma ForwardKeeps(s: State, leaders: seq<Option<nat>>, m: Msg)
    requires FlushInv(s.(ppIn := [m] + s.ppIn)) && m.Data? && m.retries == s.hwm
    ensures FlushInv(Forward(s, leaders, m))
    ensures var r := Forward(s, leaders, m); r.hwm == s.hwm && r.expectChaser == s.expectChaser
  {
    hide FlushInv;
    var h := s.(ppIn := [m] + s.ppIn);
    EnsureLeaderKeeps(h, leaders);
    var s1 := EnsureLeader(s, leaders);
    assert EnsureLeader(h, leaders) == s1.(ppIn := [m] + s1.ppIn);
    if s1.cur.None? { FailHeadKeeps(s1, m); } else { SendHeadKeeps(s1, m); }
  }

  // --------------------------------------------------------------- a new retry level

  lemma RaiseView(s: State, m: Msg)
    requires Shape(s) && s.cur.Some? && m.Data? && 1 <= m.retries <= s.max
    ensures var h := s.(ppIn := [m] + s.ppIn);
            ViewOf(h).q != [] && ViewOf(h).q[0] == m && WellShaped(ViewOf(h))
    ensures var h := s.(ppIn := [m] + s.ppIn); ViewOf(NewHighWatermark(h, m.retries)) == RaiseQ(ViewOf(h))
  {
    PushUs(s.bps, s.cur.value, [Fin(m.retries - 1)]);
    assert Bumped([Fin(m.retries - 1)]) == [Fin(m.retries)];
  }

  /** A message above hwm came back from the current broker producer, which is therefore broken. */
  lemma AboveIsOpen(s: State, m: Msg)
    requires FlushInv(s) && m in s.ppIn && m.Data? && m.retries > s.hwm
    ensures m.retries <= s.max && OfVisit(m, s.expectChaser, |s.expectChaser|)
    ensures s.cur.Some? && NeedsRetry(s.bps[s.cur.value]) && AllData(s.bps[s.cur.value].input)
    ensures AllData(ViewOf(s).us[s.cur.value])
  {
    hide Sorted, Lines, Falls, Fins;
    var v := ViewOf(s);
    assert m in v.q;
    NoOwner(v.ch, m.retries);
    var b := s.bps[s.cur.value];
    assert Health(b, s.max) && b.sent + b.buffer == [];
    forall x | x in v.us[s.cur.value] ensures x.Data? {
      BumpedMember(Pipe(b), x);
    }
  }

  lemma RaiseHealth(s: State, h: nat)
    requires Shape(s) && s.cur.Some? && 1 <= h <= s.max
    requires forall i :: 0 <= i < |s.bps| ==> Health(s.bps[i], s.max)
    requires NeedsRetry(s.bps[s.cur.value])
    ensures var t := NewHighWatermark(s, h); forall i :: 0 <= i < |t.bps| ==> Health(t.bps[i], t.max)
  {
  }

  lemma RaiseKeeps(s: State, m: Msg)
    requires FlushInv(s.(ppIn := [m] + s.ppIn)) && m.Data? && m.retries > s.hwm
    ensures s.cur.Some? && m.retries <= s.max
    ensures FlushInv(NewHighWatermark(s.(ppIn := [m] + s.ppIn), m.retries))
  {
    hide ViewInv, OfVisit, Health;
    var h := s.(ppIn := [m] + s.ppIn);
    AboveIsOpen(h, m);
    RaiseView(s, m);
    assert Raises(ViewOf(h)) by { LevelsOf(ViewOf(h)); }
    RaiseQKeeps(ViewOf(h));
    RaiseHealth(h, m.retries);
  }

  lemma LevelsOf(v: View)
    requires ViewInv(v)
    ensures WellShaped(v) && Levels(v)
  {
  }

  // ------------------------------------------------------------ flushing the retry buffers

  lemma FlushLevelView(s: State)
    requires Shape(s) && s.hwm > 0
    ensures s.cur.Some? ==> ViewOf(SendCur(s.(hwm := s.hwm - 1), s.buf[s.hwm - 1]).(buf := s.buf[s.hwm - 1 := []]))
                            == AppendU(EmptyLevel(ViewOf(s)), Bumped(s.buf[s.hwm - 1]))
  {
    if s.cur.Some? { PushUs(s.bps, s.cur.value, s.buf[s.hwm - 1]); }
  }

  lemma BufferIsData(s: State, l: nat)
    requires FlushInv(s) && l <= s.max
    ensures AllData(s.buf[l])
  {
    LevelsOf(ViewOf(s));
  }

  lemma FlushSendKeeps(s: State)
    requires FlushInv(s) && s.hwm > 0 && !s.expectChaser[s.hwm] && s.cur.Some?
    ensures FlushInv(SendCur(s.(hwm := s.hwm - 1), s.buf[s.hwm - 1]).(buf := s.buf[s.hwm - 1 := []]))
  {
    hide ViewInv, OfVisit, Health;
    FlushLevelView(s);
    BufferIsData(s, s.hwm - 1);
    FlushLevelKeeps(ViewOf(s));
    SendCurHealth(s, s.buf[s.hwm - 1]);
    var t := SendCur(s.(hwm := s.hwm - 1), s.buf[s.hwm - 1]).(buf := s.buf[s.hwm - 1 := []]);
    assert t.bps == SendCur(s, s.buf[s.hwm - 1]).bps;
    assert BrokenIfReturned(t);
  }

  lemma FlushFailKeeps(s: State)
    requires FlushInv(s) && s.hwm > 0 && !s.expectChaser[s.hwm]
    ensures FlushInv(ReturnErrors(s.(hwm := s.hwm - 1), s.buf[s.hwm - 1]).(buf := s.buf[s.hwm - 1 := []]))
  {
    BufferIsData(s, s.hwm - 1);
    IdsOfData(s.buf[s.hwm - 1]);
    hide ViewInv, OfVisit, Health;
    assert ViewOf(ReturnErrors(s.(hwm := s.hwm - 1), s.buf[s.hwm - 1]).(buf := s.buf[s.hwm - 1 := []])) == EmptyLevel(ViewOf(s));
    EmptyLevelKeeps(ViewOf(s));
  }

  lemma FlushLevelKeepsState(s: State, leaders: seq<Option<nat>>)
    requires Shape(s) && FlushInv(s) && s.hwm > 0 && !s.expectChaser[s.hwm]
    ensures FlushInv(FlushLevel(s, leaders))
    ensures FlushLevel(s, leaders).expectChaser == s.expectChaser
  {
    hide FlushInv, ReturnErrors, SendCur;
    EnsureLeaderKeeps(s, leaders);
    var s1 := EnsureLeader(s, leaders);
    assert EnsureLeader(s.(hwm := s.hwm - 1), leaders) == s1.(hwm := s.hwm - 1);
    if s1.cur.Some? { FlushSendKeeps(s1); } else { FlushFailKeeps(s1); }
    FlushLevelFrame(s, leaders);
  }

  lemma FlushLevelFrame(s: State, leaders: seq<Option<nat>>)
    requires Shape(s) && s.hwm > 0
    ensures FlushLevel(s, leaders).expectChaser == s.expectChaser
  {
  }

  lemma {:induction false} FlushRetryBuffersKeeps(s: State, leaders: seq<Option<nat>>)
    requires Shape(s) && FlushInv(s) && s.hwm > 0 && forall l :: s.hwm <= l <= s.max ==> !s.expectChaser[l]
    ensures Inv(FlushRetryBuffers(s, leaders))
    decreases s.hwm
  {
    hide FlushInv;
    FlushLevelKeepsState(s, leaders);
    var s1 := FlushLevel(s, leaders);
    if !(s1.expectChaser[s1.hwm] || s1.hwm == 0) { FlushRetryBuffersKeeps(s1, LookupsLeft(s, leaders)); }
  }

  // --------------------------------------------------------------------- one dispatch

  /** A fin on its way has an expecting level, so it is neither above hwm nor at level 0. */
  lemma FinLevel(s: State, m: Msg)
    requires FlushInv(s) && m in s.ppIn
    ensures !m.Syn? && m.retries <= s.max
    ensures m.Fin? ==> 1 <= m.retries <= s.hwm && s.expectChaser[m.retries]
  {
    hide Sorted, Lines, Falls, Visits;
    var v := ViewOf(s);
    assert m in v.q;
    assert m.Fin? ==> Fin(m.retries) in v.q;
  }

  lemma FinView(s: State, m: Msg)
    requires Shape(s) && m.Fin? && m.retries <= s.max
    ensures var h := s.(ppIn := [m] + s.ppIn);
            ViewOf(h).q != [] && ViewOf(h).q[0] == m && ViewOf(s.(expectChaser := s.expectChaser[m.retries := false])) == FinQ(ViewOf(h))
  {
    assert (s.ppIn + s.retryQ) == ([m] + s.ppIn + s.retryQ)[1..];
  }

  /** A fin is consumed: its level expects it no longer. */
  lemma TakeFinKeeps(s: State, m: Msg)
    requires FlushInv(s.(ppIn := [m] + s.ppIn)) && m.Fin? && m.retries <= s.max
    ensures FlushInv(s.(expectChaser := s.expectChaser[m.retries := false]))
  {
    hide ViewInv, Health;
    var h := s.(ppIn := [m] + s.ppIn);
    var t := s.(expectChaser := s.expectChaser[m.retries := false]);
    FinView(s, m);
    FinQKeeps(ViewOf(h));
    forall x | x in t.ppIn + t.retryQ ensures OfVisit(x, t.expectChaser, |t.expectChaser|) ==> OfVisit(x, s.expectChaser, |s.expectChaser|) {
      FinQOpen(ViewOf(h), x);
    }
    assert forall x :: x in t.ppIn + t.retryQ ==> x in h.ppIn + h.retryQ;
  }

  lemma FinQOpen(v: View, x: Msg)
    requires ViewInv(v) && v.q != [] && v.q[0].Fin? && v.q[0].retries < |v.ch| && x in v.q[1..]
    ensures OfVisit(x, FinQ(v).ch, |v.ch|) ==> OfVisit(x, v.ch, |v.ch|)
  {
    FinQVisits(v, x, |v.ch|);
  }

  lemma BufferHeadKeeps(s: State, m: Msg)
    requires FlushInv(s.(ppIn := [m] + s.ppIn)) && m.Data? && m.retries < s.hwm
    ensures FlushInv(s.(buf := s.buf[m.retries := s.buf[m.retries] + [m]]))
  {
    hide ViewInv, OfVisit, Health;
    var h := s.(ppIn := [m] + s.ppIn);
    var t := s.(buf := s.buf[m.retries := s.buf[m.retries] + [m]]);
    assert (s.ppIn + s.retryQ) == ([m] + s.ppIn + s.retryQ)[1..];
    assert ViewOf(t) == BufferQ(ViewOf(h));
    BufferQKeeps(ViewOf(h));
    assert forall x :: x in t.ppIn + t.retryQ ==> x in h.ppIn + h.retryQ;
  }

  lemma DispatchDataKeeps(s: State, leaders: seq<Option<nat>>, m: Msg)
    requires Shape(s) && Inv(s.(ppIn := [m] + s.ppIn)) && m.Data? && m.retries <= s.max
    ensures Inv(DispatchMsg(s, leaders, m))
  {
    hide FlushInv, Forward;
    var h := s.(ppIn := [m] + s.ppIn);
    if m.retries > s.hwm {
      RaiseKeeps(s, m);
      var t := NewHighWatermark(s, m.retries);
      assert t.(ppIn := [m] + t.ppIn) == NewHighWatermark(h, m.retries);
      ForwardKeeps(t, LookupsLeft(s, leaders), m);
    } else if m.retries < s.hwm {
      BufferHeadKeeps(s, m);
    } else {
      ForwardKeeps(s, leaders, m);
    }
  }

  lemma DispatchFinKeeps(s: State, leaders: seq<Option<nat>>, m: Msg)
    requires Shape(s) && Inv(s.(ppIn := [m] + s.ppIn)) && m.Fin? && m.retries <= s.max
    ensures Inv(DispatchMsg(s, leaders, m))
  {
    hide FlushInv, FlushRetryBuffers;
    var h := s.(ppIn := [m] + s.ppIn);
    FinLevel(h, m);
    TakeFinKeeps(s, m);
    TopOf(h);
    var t := s.(expectChaser := s.expectChaser[m.retries := false]);
    if m.retries == s.hwm {
      FlushRetryBuffersKeeps(t, leaders);
      InFlightFree(FlushRetryBuffers(t, leaders), -1);
    } else {
      InFlightFree(t, -1);
    }
  }

  lemma TopOf(s: State)
    requires FlushInv(s)
    ensures forall l :: s.hwm < l <= s.max ==> !s.expectChaser[l]
  {
    LevelsOf(ViewOf(s));
  }

  lemma InFlightFree(s: State, d: int)
    requires FlushInv(s)
    ensures FlushInv(s.(inFlight := s.inFlight + d))
  {
    hide ViewInv, Health, OfVisit;
    assert ViewOf(s.(inFlight := s.inFlight + d)) == ViewOf(s);
  }

  lemma DispatchKeeps(s: State, leaders: seq<Option<nat>>)
    requires Inv(s) && Enabled(s, Dispatch(leaders))
    ensures Inv(Apply(s, Dispatch(leaders)))
  {
    hide ViewInv;
    var m := s.ppIn[0];
    var t := s.(ppIn := s.ppIn[1..]);
    assert t.(ppIn := [m] + t.ppIn) == s by { assert [m] + s.ppIn[1..] == s.ppIn; }
    assert DropAbandoned(t) == t by {
      assert s.cur.Some? ==> Health(s.bps[s.cur.value], s.max);
    }
    FinLevel(s, m);
    if m.Data? { DispatchDataKeeps(t, leaders, m); } else { DispatchFinKeeps(t, leaders, m); }
  }
}
