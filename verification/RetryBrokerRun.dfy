/** Every step of a broker producer, of the retry handler and of the dispatcher keeps the invariant. */
module RetryBrokerRun {
  import opened RetryModel
  import opened RetryInvariant
  import opened RetryViewSteps
  import opened RetryDispatchSteps

  lemma UsUpdate(bps: seq<BrokerProducer>, i: nat, b: BrokerProducer)
    requires i < |bps|
    ensures Us(bps[i := b]) == Us(bps)[i := Bumped(Pipe(b))]
  {
  }

  lemma EmptyViewOrder(v: View)
    requires WellShaped(v) && v.q == [] && v.acked == [] && v.hwm == 0
    requires forall i :: 0 <= i < |v.us| ==> v.us[i] == [Syn]
    requires forall l :: 0 <= l <= v.max ==> v.buf[l] == [] && !v.ch[l]
    ensures Levels(v) && Sorted(v) && Falls(v) && Lines(v)
  {
    assert Sorted(v) by {
      assert forall x :: !Lives(v, x);
    }
    assert forall i :: 0 <= i < |v.us| ==> Fifo(v.us[i]) && Before(v.q, v.us[i]);
  }

  lemma EmptyViewFins(v: View)
    requires WellShaped(v) && v.q == []
    requires forall i :: 0 <= i < |v.us| ==> v.us[i] == [Syn]
    requires forall l :: 0 <= l <= v.max ==> !v.ch[l]
    ensures Visits(v) && Fins(v)
  {
    assert forall i :: 0 <= i < |v.us| ==> FinLast(v.us[i], v.ch) && MarkersFirst(v.us[i], v.ch) && OneFin(v.us[i]);
  }

  lemma InitInv(max: nat, prefetched: bool)
    requires max > 0
    ensures Inv(Init(max, prefetched))
  {
    hide Levels, Sorted, Falls, Lines, Visits, Fins;
    var s := Init(max, prefetched);
    if prefetched { assert Bumped(Pipe(s.bps[0])) == [Syn]; }
    EmptyViewOrder(ViewOf(s));
    EmptyViewFins(ViewOf(s));
  }

  lemma FeedKeeps(s: State)
    requires Inv(s) && Enabled(s, Feed)
    ensures Inv(Apply(s, Feed))
  {
    hide ViewInv;
    var t := Apply(s, Feed);
    assert t.ppIn + t.retryQ == s.ppIn + s.retryQ;
    assert ViewOf(t) == ViewOf(s);
  }

  lemma RejectedSorted(v: View)
    requires Sorted(v)
    ensures Sorted(v.(submitted := v.submitted + 1))
  {
    assert forall x :: Lives(v.(submitted := v.submitted + 1), x) ==> Lives(v, x);
  }

  lemma RejectedView(v: View)
    requires ViewInv(v)
    ensures ViewInv(v.(submitted := v.submitted + 1))
  {
    hide Lives, Lines, Fins;
    RejectedSorted(v);
    RejectedRest(v);
  }

  lemma RejectedRest(v: View)
    requires WellShaped(v) && Lines(v) && Fins(v)
    ensures Lines(v.(submitted := v.submitted + 1)) && Fins(v.(submitted := v.submitted + 1))
  {
  }

  lemma AcceptedView(s: State)
    requires Inv(s)
    ensures ViewOf(s.(submitted := s.submitted + 1, ppIn := s.ppIn + [Data(s.submitted, 0)])) == InsertQ(ViewOf(s), |s.ppIn|)
    ensures ViewInv(InsertQ(ViewOf(s), |s.ppIn|))
  {
    var v := ViewOf(s);
    assert v.q[..|s.ppIn|] == s.ppIn && v.q[|s.ppIn|..] == s.retryQ;
    forall k | |s.ppIn| <= k < |v.q| ensures Retries(v.q[k]) > 0 {
      assert v.q[k] in s.retryQ;
    }
    InsertQKeeps(v, |s.ppIn|);
  }

  lemma SubmitKeeps(s: State, accepted: bool)
    requires Inv(s) && Enabled(s, Submit(accepted))
    ensures Inv(Apply(s, Submit(accepted)))
  {
    hide ViewInv;
    var t := Apply(s, Submit(accepted));
    if s.shuttingDown || !accepted {
      assert ViewOf(t) == ViewOf(s).(submitted := s.submitted + 1);
      RejectedView(ViewOf(s));
    } else {
      AcceptedView(s);
      assert forall x :: x in t.ppIn + t.retryQ ==> x in s.ppIn + s.retryQ || x == Data(s.submitted, 0);
    }
  }

  /** A step of broker producer i that moves messages along its pipe, or makes it unhealthy. */
  lemma InternalKeeps(s: State, i: nat, b: BrokerProducer)
    requires Inv(s) && i < |s.bps|
    requires Pipe(b) == Pipe(s.bps[i]) && Health(b, s.max)
    requires NeedsRetry(s.bps[i]) ==> NeedsRetry(b) && b.input == s.bps[i].input
    requires NeedsRetry(s.bps[i]) || (s.cur == Some(i) ==> forall x :: x in s.ppIn + s.retryQ ==> !OfVisit(x, s.expectChaser, |s.expectChaser|))
    ensures Inv(s.(bps := s.bps[i := b]))
  {
    var t := s.(bps := s.bps[i := b]);
    UsUpdate(s.bps, i, b);
    assert ViewOf(t) == ViewOf(s);
  }

  lemma FlushKeeps(s: State, i: nat)
    requires Inv(s) && Enabled(s, Flush(i))
    ensures Inv(Apply(s, Flush(i)))
  {
    var b := s.bps[i];
    var b' := b.(sent := b.buffer, buffer := []);
    assert b.sent + b.buffer == b.buffer && b'.sent + b'.buffer == b.buffer;
    assert Pipe(b') == Pipe(b);
    if s.cur == Some(i) { HealthyCurrent(s, i); }
    InternalKeeps(s, i, b');
  }

  /** While the current broker producer is healthy, nothing of its visit has come back. */
  lemma HealthyCurrent(s: State, i: nat)
    requires FlushInv(s) && i < |s.bps| && !NeedsRetry(s.bps[i]) && s.cur == Some(i)
    ensures forall x :: x in s.ppIn + s.retryQ ==> !OfVisit(x, s.expectChaser, |s.expectChaser|)
  {
  }

  lemma ConnectionLostKeeps(s: State, i: nat)
    requires Inv(s) && Enabled(s, ConnectionLost(i))
    ensures Inv(Apply(s, ConnectionLost(i)))
  {
    hide ViewInv;
    var b := s.bps[i];
    var b' := b.(bounce := b.sent + b.buffer, sent := [], buffer := [], closing := true);
    assert Pipe(b') == Pipe(b);
    if !NeedsRetry(b) && s.cur == Some(i) { HealthyCurrent(s, i); }
    InternalKeeps(s, i, b');
  }

  lemma RetriableKeeps(s: State, i: nat)
    requires Inv(s) && Enabled(s, Respond(i, Retriable))
    ensures Inv(Apply(s, Respond(i, Retriable)))
  {
    hide ViewInv;
    var b := s.bps[i];
    var b' := b.(bounce := b.sent + b.buffer, sent := [], buffer := [], retrying := true);
    assert Pipe(b') == Pipe(b);
    assert b.sent + b.buffer != [];
    if s.cur == Some(i) { HealthyCurrent(s, i); }
    InternalKeeps(s, i, b');
  }

  // ------------------------------------------------------------- settling and returning

  ghost predicate OnlyBrokers(s: State, t: State) {
    && t == s.(bps := t.bps, retryQ := t.retryQ, failed := t.failed, acked := t.acked, inFlight := t.inFlight)
    && |t.bps| == |s.bps|
  }

  /** The parts of the invariant outside the view, for a step of broker producer i that may hand one
      message `back` to the retry handler. */
  lemma Reassemble(s: State, t: State, i: nat, back: seq<Msg>)
    requires Inv(s) && OnlyBrokers(s, t) && i < |s.bps|
    requires forall j :: 0 <= j < |s.bps| && j != i ==> t.bps[j] == s.bps[j]
    requires ViewInv(ViewOf(t)) && Health(t.bps[i], s.max)
    requires t.retryQ == s.retryQ + back && forall m :: m in back ==> Retries(m) > 0
    requires forall x :: x in back && OfVisit(x, s.expectChaser, |s.expectChaser|) ==>
               NeedsRetry(t.bps[i]) && AllData(t.bps[i].input) && s.cur == Some(i)
    requires (NeedsRetry(s.bps[i]) && AllData(s.bps[i].input)) ==> (NeedsRetry(t.bps[i]) && AllData(t.bps[i].input))
    ensures Inv(t)
  {
    hide ViewInv, Health, OfVisit, NeedsRetry, AllData;
    assert t.ppIn + t.retryQ == s.ppIn + s.retryQ + back;
  }

  /** Messages a up to b of broker producer i leave it. */
  lemma DropUView(s: State, t: State, i: nat, a: nat, b: nat)
    requires i < |s.bps| && OnlyBrokers(s, t) && t.retryQ == s.retryQ && t.acked == s.acked
    requires t.bps == s.bps[i := t.bps[i]] && a <= b <= |Pipe(s.bps[i])|
    requires Pipe(t.bps[i]) == Pipe(s.bps[i])[..a] + Pipe(s.bps[i])[b..]
    ensures |ViewOf(s).us[i]| == |Pipe(s.bps[i])| && ViewOf(t) == DropU(ViewOf(s), i, a, b)
  {
    UsUpdate(s.bps, i, t.bps[i]);
    assert Bumped(Pipe(t.bps[i])) == Cut(Bumped(Pipe(s.bps[i])), a, b);
  }

  lemma ReturnUView(s: State, t: State, i: nat)
    requires i < |s.bps| && OnlyBrokers(s, t) && t.acked == s.acked && Pipe(s.bps[i]) != []
    requires t.bps == s.bps[i := t.bps[i]] && Pipe(t.bps[i]) == Pipe(s.bps[i])[1..]
    requires t.retryQ == s.retryQ + [Bump(Pipe(s.bps[i])[0])]
    ensures |ViewOf(s).us[i]| == |Pipe(s.bps[i])| && ViewOf(t) == ReturnU(ViewOf(s), i)
  {
    UsUpdate(s.bps, i, t.bps[i]);
    assert Bumped(Pipe(s.bps[i])[1..]) == Bumped(Pipe(s.bps[i]))[1..];
    assert t.ppIn + t.retryQ == s.ppIn + s.retryQ + [Bump(Pipe(s.bps[i])[0])];
  }

  // ---------------------------------------------------------------------- the replies

  lemma {:induction false} IdsOfData(q: seq<Msg>)
    requires AllData(q)
    ensures |Ids(q)| == |q| && forall k :: 0 <= k < |q| ==> Ids(q)[k] == q[k].id
  {
    if q != [] {
      assert q[0] in q && forall m :: m in q[1..] ==> m in q;
      IdsOfData(q[1..]);
    }
  }

  /** What a healthy broker producer holds is of the open visit, and it is the current one. */
  lemma HealthyIsOpen(s: State, i: nat, k: nat)
    requires FlushInv(s) && i < |s.bps| && !NeedsRetry(s.bps[i])
    requires k < |Pipe(s.bps[i])| && Pipe(s.bps[i])[k].Data?
    ensures OfVisit(ViewOf(s).us[i][k], s.expectChaser, |s.expectChaser|)
    ensures s.cur == Some(i)
    ensures forall j :: k < j < |Pipe(s.bps[i])| ==> Pipe(s.bps[i])[j].Data?
  {
    hide Levels, Sorted, Lines, Falls;
    var v := ViewOf(s);
    var p := Pipe(s.bps[i]);
    assert v.us[i] == Bumped(p) && v.us[i][k] in v.us[i];
    forall m | m in v.us[i] ensures !m.Fin? {
      var j :| 0 <= j < |p| && v.us[i][j] == m;
      assert p[j] in p;
      assert Health(s.bps[i], s.max);
    }
    NoFinIsOpen(v, i, v.us[i][k]);
    assert MarkersFirst(v.us[i], v.ch);
  }

  lemma SettleKeeps(s: State, t: State, i: nat)
    requires Inv(s) && i < |s.bps| && s.bps[i].bounce == [] && s.bps[i].sent != [] && OnlyBrokers(s, t)
    requires t.bps == s.bps[i := s.bps[i].(sent := [])] && t.retryQ == s.retryQ && t.acked == s.acked
    ensures Inv(t)
  {
    hide ViewInv, OfVisit;
    var b := s.bps[i];
    var n := |b.sent|;
    assert Pipe(b) == b.sent + b.buffer + b.input;
    assert Pipe(t.bps[i]) == Pipe(b)[..0] + Pipe(b)[n..];
    DropUView(s, t, i, 0, n);
    assert forall k :: 0 <= k < n ==> Pipe(b)[k] in b.sent;
    DropUKeeps(ViewOf(s), i, 0, n);
    SettleHealth(b, s.max);
    Reassemble(s, t, i, []);
  }

  lemma SettleHealth(b: BrokerProducer, max: nat)
    requires Health(b, max) && b.bounce == []
    ensures Health(b.(sent := []), max)
  {
    assert b.buffer != [] ==> b.sent + b.buffer != [];
  }

  /** The outstanding messages of a broker producer: data of the open visit, and it is healthy. */
  lemma SentIsOpen(s: State, i: nat, k: nat)
    requires Inv(s) && i < |s.bps| && s.bps[i].bounce == [] && k < |s.bps[i].sent|
    ensures Pipe(s.bps[i])[k] == s.bps[i].sent[k] && s.bps[i].sent[k].Data?
    ensures OfVisit(ViewOf(s).us[i][k], s.expectChaser, |s.expectChaser|)
    ensures s.cur == Some(i) && !NeedsRetry(s.bps[i])
  {
    hide ViewInv, OfVisit;
    var b := s.bps[i];
    assert Pipe(b) == b.sent + (b.buffer + b.input) && b.sent[k] in b.sent && b.sent + b.buffer != [];
    HealthyIsOpen(s, i, k);
  }

  lemma AckedView(s: State, i: nat)
    requires Inv(s) && Enabled(s, Respond(i, Acked))
    ensures ViewInv(ViewOf(Apply(s, Respond(i, Acked))))
  {
    hide ViewInv, OfVisit, Health, BrokenIfReturned, FlushInv;
    var t := Apply(s, Respond(i, Acked));
    var b := s.bps[i];
    var n := |b.sent|;
    var v := ViewOf(s);
    SentPipe(b);
    DropUView(s, t.(acked := s.acked), i, 0, n);
    forall k | 0 <= k < n ensures OfVisit(v.us[i][k], v.ch, |v.ch|) && b.sent[k].Data? && b.sent[k].id == v.us[i][k].id {
      SentIsOpen(s, i, k);
    }
    SentIsOpen(s, i, 0);
    HealthyCurrent(s, i);
    IdsOfData(b.sent);
    AckUKeeps(v, i, n, Ids(b.sent)) by { InvView(s); }
  }

  lemma InvView(s: State)
    requires Inv(s)
    ensures ViewInv(ViewOf(s))
  {
  }

  lemma SentPipe(b: BrokerProducer)
    requires b.bounce == []
    ensures |b.sent| <= |Pipe(b)| && Pipe(b.(sent := [])) == Pipe(b)[..0] + Pipe(b)[|b.sent|..]
  {
    assert Pipe(b) == b.sent + (b.buffer + b.input);
  }

  lemma AckedKeeps(s: State, i: nat)
    requires Inv(s) && Enabled(s, Respond(i, Acked))
    ensures Inv(Apply(s, Respond(i, Acked)))
  {
    hide ViewInv, OfVisit, Health, BrokenIfReturned, Pipe;
    var t := Apply(s, Respond(i, Acked));
    AckedView(s, i);
    SettleHealth(s.bps[i], s.max);
    Reassemble(s, t, i, []);
  }

  // ---------------------------------------------------------- taking and sending back

  /** A message of the open visit is in the current broker producer with only data behind it. */
  lemma OpenHead(s: State, i: nat, k: nat)
    requires FlushInv(s) && i < |s.bps| && k < |Pipe(s.bps[i])|
    requires OfVisit(ViewOf(s).us[i][k], s.expectChaser, |s.expectChaser|)
    ensures s.cur == Some(i)
    ensures forall j :: k < j < |Pipe(s.bps[i])| ==> Pipe(s.bps[i])[j].Data?
  {
    hide Levels, Sorted, Lines, Falls, OfVisit;
    var v := ViewOf(s);
    assert v.us[i] == Bumped(Pipe(s.bps[i])) && v.us[i][k] in v.us[i];
    assert MarkersFirst(v.us[i], v.ch);
  }

  /** The levels a broker producer can hold. */
  lemma PipeLevels(s: State, i: nat, k: nat)
    requires FlushInv(s) && i < |s.bps| && k < |Pipe(s.bps[i])|
    ensures Pipe(s.bps[i])[k].Fin? ==> Pipe(s.bps[i])[k].retries < s.max
    ensures forall j :: k < j < |Pipe(s.bps[i])| && !Pipe(s.bps[i])[k].Data? ==> !Pipe(s.bps[i])[j].Fin?
  {
    hide Sorted, Lines, Falls, Visits;
    var u := ViewOf(s).us[i];
    assert u == Bumped(Pipe(s.bps[i])) && u[k] in u;
    assert OneFin(u);
  }

  /** An unhealthy broker producer sends back its oldest message, or fails it at the retry limit. */
  lemma SendBackKeeps(s: State, i: nat, b: BrokerProducer)
    requires Inv(s) && i < |s.bps| && NeedsRetry(s.bps[i])
    requires Pipe(s.bps[i]) != [] && !Pipe(s.bps[i])[0].Syn? && Pipe(b) == Pipe(s.bps[i])[1..]
    requires Health(b, s.max) && (NeedsRetry(b) || Pipe(s.bps[i])[0].Fin?)
    requires forall x :: x in b.input ==> x in Pipe(b)
    requires (AllData(s.bps[i].input) ==> AllData(b.input)) && (Pipe(s.bps[i])[0].Fin? ==> Pipe(s.bps[i])[0] in s.bps[i].input)
    ensures Inv(RetryMessage(s.(bps := s.bps[i := b]), Pipe(s.bps[i])[0]))
  {
    hide ViewInv, OfVisit, Health;
    var m := Pipe(s.bps[i])[0];
    var v := ViewOf(s);
    var t := RetryMessage(s.(bps := s.bps[i := b]), m);
    PipeLevels(s, i, 0);
    assert v.us[i][0] == Bump(m);
    if Retries(m) >= s.max {
      assert Pipe(b) == Pipe(s.bps[i])[..0] + Pipe(s.bps[i])[1..];
      DropUView(s, t, i, 0, 1);
      DropUKeeps(v, i, 0, 1);
      Reassemble(s, t, i, []);
    } else {
      ReturnUView(s, t, i);
      ReturnUKeeps(v, i);
      if OfVisit(Bump(m), s.expectChaser, |s.expectChaser|) {
        OpenHead(s, i, 0);
        OfVisitData(Bump(m), s.expectChaser, |s.expectChaser|);
        assert forall x :: x in Pipe(b) ==> x.Data?;
      }
      Reassemble(s, t, i, [Bump(m)]);
    }
  }

  lemma EmitKeeps(s: State, i: nat)
    requires Inv(s) && Enabled(s, Emit(i))
    ensures Inv(Apply(s, Emit(i)))
  {
    hide ViewInv;
    var b := s.bps[i];
    var b' := b.(bounce := b.bounce[1..]);
    assert b.sent + b.buffer == [] && Pipe(b) == b.bounce + b.input;
    assert Pipe(b)[0] == b.bounce[0] && b.bounce[0] in b.bounce;
    assert Pipe(b') == Pipe(b)[1..];
    assert forall x :: x in b'.bounce ==> x in b.bounce;
    SendBackKeeps(s, i, b');
  }

  lemma SynHealth(b: BrokerProducer, max: nat)
    requires Health(b, max) && b.bounce == [] && b.input != [] && b.input[0].Syn?
    ensures b.sent + b.buffer == [] && !AllData(b.input)
    ensures (forall x :: x in b.input[1..] ==> !x.Fin?) ==> Health(b.(input := b.input[1..], retrying := false), max)
  {
    assert b.input[0] in b.input;
  }

  /** What taking the head of the input of a healthy or newly opened broker producer changes. */
  lemma TakeIs(s: State, i: nat, added: bool)
    requires Enabled(s, Take(i, added))
    ensures var b, t := s.bps[i], Apply(s, Take(i, added));
            && (b.input[0].Syn? ==> t == s.(bps := s.bps[i := b.(input := b.input[1..], retrying := false)], inFlight := s.inFlight - 1))
            && (b.input[0].Data? && !NeedsRetry(b) && !added ==>
                  t == s.(bps := s.bps[i := b.(input := b.input[1..])], failed := s.failed + [b.input[0].id], inFlight := s.inFlight - 1))
  {
  }

  lemma TakeSynKeeps(s: State, i: nat, added: bool)
    requires Inv(s) && Enabled(s, Take(i, added)) && s.bps[i].input[0].Syn?
    ensures Inv(Apply(s, Take(i, added)))
  {
    TakeIs(s, i, added);
    hide ViewInv, OfVisit, Health, AllData, BrokenIfReturned, Apply;
    var b := s.bps[i];
    var t := Apply(s, Take(i, added));
    SynHealth(b, s.max);
    assert Pipe(b) == b.input;
    assert Pipe(t.bps[i]) == Pipe(b)[..0] + Pipe(b)[1..];
    DropUView(s, t, i, 0, 1);
    DropUKeeps(ViewOf(s), i, 0, 1);
    PipeLevels(s, i, 0);
    Reassemble(s, t, i, []);
  }

  lemma TakeBackKeeps(s: State, i: nat, added: bool)
    requires Inv(s) && Enabled(s, Take(i, added)) && !s.bps[i].input[0].Syn? && NeedsRetry(s.bps[i])
    ensures Inv(Apply(s, Take(i, added)))
  {
    hide ViewInv;
    var b := s.bps[i];
    var m := b.input[0];
    var b1 := b.(input := b.input[1..]);
    var b' := if !b.closing && m.Fin? then b1.(retrying := false) else b1;
    assert b.sent + b.buffer == [] && Pipe(b) == b.input && Pipe(b') == b.input[1..];
    PipeLevels(s, i, 0);
    assert m in b.input && forall x :: x in b'.input ==> x in b.input;
    SendBackKeeps(s, i, b');
  }

  lemma HealthyInput(s: State, i: nat)
    requires Inv(s) && i < |s.bps| && s.bps[i].bounce == [] && s.bps[i].input != []
    requires !s.bps[i].input[0].Syn? && !NeedsRetry(s.bps[i])
    ensures AllData(s.bps[i].input) && s.cur == Some(i)
    ensures var b := s.bps[i]; Pipe(b) == b.sent + b.buffer + b.input
  {
    hide ViewInv, OfVisit;
    var b := s.bps[i];
    var k := |b.sent| + |b.buffer|;
    assert Health(b, s.max) && b.input[0] in b.input && b.input[0].Data?;
    assert Pipe(b) == b.sent + b.buffer + b.input && Pipe(b)[k] == b.input[0];
    HealthyIsOpen(s, i, k);
    forall x | x in b.input ensures x.Data? {
      var j :| 0 <= j < |b.input| && b.input[j] == x;
      assert Pipe(b)[k + j] == x;
    }
  }

  lemma AddHealth(b: BrokerProducer, max: nat)
    requires Health(b, max) && !NeedsRetry(b) && b.input != [] && AllData(b.input)
    ensures Health(b.(input := b.input[1..], buffer := b.buffer + [b.input[0]]), max)
    ensures Health(b.(input := b.input[1..]), max) && AllData(b.input[1..])
  {
    assert forall x :: x in b.input[1..] ==> x in b.input;
    assert b.input[0] in b.input;
  }

  lemma TakeAddedKeeps(s: State, i: nat)
    requires Inv(s) && Enabled(s, Take(i, true)) && !s.bps[i].input[0].Syn? && !NeedsRetry(s.bps[i])
    ensures Inv(Apply(s, Take(i, true)))
  {
    hide ViewInv, OfVisit, Health;
    var b := s.bps[i];
    HealthyInput(s, i);
    HealthyCurrent(s, i);
    AddHealth(b, s.max);
    assert b.input[0] in b.input;
    var b' := b.(input := b.input[1..], buffer := b.buffer + [b.input[0]]);
    assert Pipe(b') == Pipe(b) by { assert b.input == [b.input[0]] + b.input[1..]; }
    InternalKeeps(s, i, b');
  }

  lemma PipeCut(b: BrokerProducer)
    requires b.bounce == [] && b.input != []
    ensures var k := |b.sent| + |b.buffer|;
            && k < |Pipe(b)| && Pipe(b)[k] == b.input[0]
            && Pipe(b.(input := b.input[1..])) == Pipe(b)[..k] + Pipe(b)[k + 1..]
  {
    var k := |b.sent| + |b.buffer|;
    assert Pipe(b) == (b.sent + b.buffer) + b.input;
    assert Pipe(b)[..k] == b.sent + b.buffer && Pipe(b)[k + 1..] == b.input[1..];
  }

  lemma TakeUnencodableView(s: State, i: nat, t: State)
    requires Inv(s) && i < |s.bps| && s.bps[i].bounce == [] && s.bps[i].input != [] && s.bps[i].input[0].Data?
    requires OnlyBrokers(s, t) && t.retryQ == s.retryQ && t.acked == s.acked
    requires t.bps == s.bps[i := s.bps[i].(input := s.bps[i].input[1..])]
    ensures ViewInv(ViewOf(t))
  {
    hide ViewInv, Health, BrokenIfReturned, Pipe;
    var b := s.bps[i];
    var k := |b.sent| + |b.buffer|;
    PipeCut(b);
    DropUView(s, t, i, k, k + 1);
    DropUKeeps(ViewOf(s), i, k, k + 1);
  }

  lemma TakeUnencodableKeeps(s: State, i: nat)
    requires Inv(s) && Enabled(s, Take(i, false)) && !s.bps[i].input[0].Syn? && !NeedsRetry(s.bps[i])
    ensures Inv(Apply(s, Take(i, false)))
  {
    TakeIs(s, i, false);
    HealthyInput(s, i);
    assert s.bps[i].input[0] in s.bps[i].input;
    hide ViewInv, OfVisit, Health, BrokenIfReturned, Apply, AllData, Pipe;
    var t := Apply(s, Take(i, false));
    AddHealth(s.bps[i], s.max);
    TakeUnencodableView(s, i, t);
    Reassemble(s, t, i, []);
  }

  lemma TakeAddKeeps(s: State, i: nat, added: bool)
    requires Inv(s) && Enabled(s, Take(i, added)) && !s.bps[i].input[0].Syn? && !NeedsRetry(s.bps[i])
    ensures Inv(Apply(s, Take(i, added)))
  {
    if added { TakeAddedKeeps(s, i); } else { TakeUnencodableKeeps(s, i); }
  }
}
