/** What becomes of a message: which steps acknowledge it, which let it fail, and where the others put
    it. Stated of single steps, for every state, and then of runs. */
module RetryFate {
  import opened RetryModel
  import opened RetryInvariant

  // ------------------------------------------------------------------------- acknowledgements

  /** The messages a step acknowledges. */
  function Acknowledged(s: State, step: Step): seq<nat>
    requires Enabled(s, step)
  {
    if step.Respond? && step.reply == Acked then Ids(s.bps[step.i].sent) else []
  }

  lemma LevelAcksNothing(s: State, leaders: seq<Option<nat>>)
    requires Shape(s) && s.hwm > 0
    ensures FlushLevel(s, leaders).acked == s.acked
  {
  }

  lemma {:induction false} FlushAcksNothing(s: State, leaders: seq<Option<nat>>)
    requires Shape(s) && s.hwm > 0
    ensures FlushRetryBuffers(s, leaders).acked == s.acked
    decreases s.hwm
  {
    hide FlushLevel;
    LevelAcksNothing(s, leaders);
    var s1 := FlushLevel(s, leaders);
    if !(s1.expectChaser[s1.hwm] || s1.hwm == 0) { FlushAcksNothing(s1, LookupsLeft(s, leaders)); }
  }

  lemma ForwardAcksNothing(s: State, leaders: seq<Option<nat>>, m: Msg)
    requires Shape(s)
    ensures Forward(s, leaders, m).acked == s.acked && EnsureLeader(s, leaders).acked == s.acked && EnsureLeader(s, leaders).max == s.max
  {
  }

  lemma DispatchAcksNothing(s: State, leaders: seq<Option<nat>>, m: Msg)
    requires Shape(s) && Retries(m) <= s.max
    ensures DispatchMsg(s, leaders, m).acked == s.acked
  {
    hide FlushRetryBuffers, Forward, EnsureLeader;
    var l := Retries(m);
    ForwardAcksNothing(s, leaders, m);
    if l > s.hwm {
      var s1 := EnsureLeader(s, leaders);
      if s1.cur.Some? { ForwardAcksNothing(NewHighWatermark(s1, l), LookupsLeft(s, leaders), m); }
    } else if l == s.hwm > 0 && m.Fin? {
      FlushAcksNothing(s.(expectChaser := s.expectChaser[s.hwm := false]), leaders);
    }
  }

  /** Only a broker's word that it stored a set acknowledges, and it acknowledges just that set. */
  lemma AckedBy(s: State, step: Step)
    requires Enabled(s, step)
    ensures Apply(s, step).acked == s.acked + Acknowledged(s, step)
  {
    hide DispatchMsg, Ids;
    assert s.acked + [] == s.acked;
    if step.Dispatch? { DispatchAcksNothing(DropAbandoned(s.(ppIn := s.ppIn[1..])), step.leaders, s.ppIn[0]); }
  }

  // --------------------------------------------------------------------------- a broker's reply

  /** A refused or dropped set fails as a whole, and is acknowledged to no part. */
  lemma RefusedFails(s: State, i: nat, reply: Reply)
    requires Enabled(s, Respond(i, reply)) && (reply.Refused? || reply.Dropped? || (reply.Retriable? && s.max == 0))
    ensures var t := Apply(s, Respond(i, reply));
            && t.acked == s.acked && t.failed == s.failed + Ids(s.bps[i].sent)
            && t.bps[i].sent == [] && t.bps[i].buffer == s.bps[i].buffer && t.bps[i].input == s.bps[i].input
            && t.retryQ == s.retryQ && t.ppIn == s.ppIn
  {
  }

  lemma AckedSucceeds(s: State, i: nat)
    requires Enabled(s, Respond(i, Acked))
    ensures var t := Apply(s, Respond(i, Acked));
            && t.acked == s.acked + Ids(s.bps[i].sent) && t.failed == s.failed
            && t.bps[i].sent == [] && t.bps[i].buffer == s.bps[i].buffer && t.bps[i].input == s.bps[i].input
            && t.retryQ == s.retryQ && t.ppIn == s.ppIn
  {
  }

  /** A set that may be sent again, and a lost connection, settle nothing: what was sent or buffered is
      held, in order, to be passed on before anything else. */
  lemma RetriableHolds(s: State, i: nat, lost: bool)
    requires if lost then Enabled(s, ConnectionLost(i)) else s.max > 0 && Enabled(s, Respond(i, Retriable))
    ensures var t := Apply(s, if lost then ConnectionLost(i) else Respond(i, Retriable));
            && t.acked == s.acked && t.failed == s.failed && t.retryQ == s.retryQ && t.ppIn == s.ppIn
            && t.bps[i].bounce == s.bps[i].sent + s.bps[i].buffer && Pipe(t.bps[i]) == Pipe(s.bps[i])
            && NeedsRetry(t.bps[i]) && !Enabled(t, Flush(i)) && t.inFlight == s.inFlight
  {
  }

  // ----------------------------------------------------------------------- going back up a level

  /** What is passed back: the messages below the limit, one level higher. */
  function Returned(ms: seq<Msg>, max: nat): seq<Msg> {
    if ms == [] then [] else (if Retries(ms[0]) < max then [Bump(ms[0])] else []) + Returned(ms[1..], max)
  }

  /** The messages at the limit. */
  function Exhausted(ms: seq<Msg>, max: nat): seq<nat> {
    if ms == [] then [] else (if Retries(ms[0]) >= max && ms[0].Data? then [ms[0].id] else []) + Exhausted(ms[1..], max)
  }

  /** Messages below the limit come back as they were, one level higher. */
  lemma {:induction false} AllReturned(ms: seq<Msg>, max: nat)
    requires forall m :: m in ms ==> Retries(m) < max
    ensures Returned(ms, max) == Bumped(ms) && Exhausted(ms, max) == []
  {
    if ms != [] {
      assert ms[0] in ms && forall m :: m in ms[1..] ==> m in ms;
      AllReturned(ms[1..], max);
      assert Bumped(ms) == [Bump(ms[0])] + Bumped(ms[1..]);
    }
  }

  /** Messages at the limit fail. */
  lemma {:induction false} AllExhausted(ms: seq<Msg>, max: nat)
    requires forall m :: m in ms ==> Retries(m) >= max
    ensures Returned(ms, max) == [] && Exhausted(ms, max) == Ids(ms)
  {
    if ms != [] {
      assert ms[0] in ms && forall m :: m in ms[1..] ==> m in ms;
      AllExhausted(ms[1..], max);
    }
  }

  /** Passing on the oldest message held: it comes back one level higher, or fails at the limit. */
  lemma EmitReturns(s: State, i: nat)
    requires Enabled(s, Emit(i))
    ensures var t, m := Apply(s, Emit(i)), s.bps[i].bounce[0];
            && t.bps == s.bps[i := s.bps[i].(bounce := s.bps[i].bounce[1..])]
            && t.retryQ == s.retryQ + Returned([m], s.max) && t.failed == s.failed + Exhausted([m], s.max)
            && t.acked == s.acked && t.ppIn == s.ppIn && t.max == s.max && t.closed == s.closed
  {
    var m := s.bps[i].bounce[0];
    assert [m][1..] == [];
    assert s.retryQ + [] == s.retryQ && s.failed + [] == s.failed;
  }

  function Emits(i: nat, n: nat): seq<Step> {
    seq(n, _ => Emit(i))
  }

  /** What has been passed on from i: the retry queue and the failures have grown by these. */
  ghost predicate PassedOn(s: State, i: nat, ms: seq<Msg>, t: State)
    requires i < |s.bps|
  {
    && t.bps == s.bps[i := s.bps[i].(bounce := [])] && t.acked == s.acked
    && t.retryQ == s.retryQ + Returned(ms, s.max) && t.failed == s.failed + Exhausted(ms, s.max)
  }

  lemma PassOnMore(s: State, i: nat, t: State, u: State)
    requires Enabled(s, Emit(i)) && t == Apply(s, Emit(i)) && i < |t.bps| && PassedOn(t, i, s.bps[i].bounce[1..], u)
    ensures PassedOn(s, i, s.bps[i].bounce, u)
  {
    hide Apply, Returned, Exhausted;
    EmitReturns(s, i);
    ReturnedMore(s.bps[i].bounce, s.max);
  }

  lemma ReturnedMore(ms: seq<Msg>, max: nat)
    requires ms != []
    ensures Returned(ms, max) == Returned([ms[0]], max) + Returned(ms[1..], max)
    ensures Exhausted(ms, max) == Exhausted([ms[0]], max) + Exhausted(ms[1..], max)
  {
    assert [ms[0]][1..] == [];
  }

  /** A broker producer that passes on all it holds does so in order. */
  lemma {:induction false} AllEmitted(s: State, i: nat)
    requires Shape(s) && !s.closed && i < |s.bps|
    ensures var n := |s.bps[i].bounce|;
            ValidRun(s, Emits(i, n)) && PassedOn(s, i, s.bps[i].bounce, Run(s, Emits(i, n)))
    decreases |s.bps[i].bounce|
  {
    var b := s.bps[i];
    if b.bounce == [] {
      assert s.bps[i := b.(bounce := [])] == s.bps;
      assert s.retryQ + [] == s.retryQ && s.failed + [] == s.failed;
    } else {
      var t := Apply(s, Emit(i));
      EmitReturns(s, i);
      hide PassedOn, Apply, Enabled, Returned, Exhausted;
      AllEmitted(t, i);
      var n := |b.bounce|;
      assert Emits(i, n)[1..] == Emits(i, n - 1) && Emits(i, n)[0] == Emit(i);
      PassOnMore(s, i, t, Run(t, Emits(i, n - 1)));
    }
  }

  // ---------------------------------------------------------------------------------- dispatch

  /** The leader looked up first, if it was found. */
  predicate Finds(leaders: seq<Option<nat>>) {
    leaders != [] && leaders[0].Some?
  }

  /** Messages go to the leader: to the broker producer in use, behind all it has got; if there is none,
      behind a syn to that of the leader looked up, an existing one or a new one; and if no leader is
      found they fail. */
  ghost predicate Goes(s: State, leaders: seq<Option<nat>>, ms: seq<Msg>, t: State)
    requires Shape(s)
  {
    if s.cur.Some? then
      t.cur == s.cur && t.failed == s.failed && t.bps == s.bps[s.cur.value := Push(s.bps[s.cur.value], ms)]
    else if Finds(leaders) then
      var i := leaders[0].value;
      && t.failed == s.failed && t.cur == Some(if i < |s.bps| then i else |s.bps|)
      && t.bps == if i < |s.bps| then s.bps[i := Push(s.bps[i], [Syn] + ms)] else s.bps + [FreshBroker([Syn] + ms)]
    else
      t.cur.None? && t.bps == s.bps && t.failed == s.failed + Ids(ms)
  }

  lemma PushTwice(b: BrokerProducer, ms: seq<Msg>, ns: seq<Msg>)
    ensures Push(Push(b, ms), ns) == Push(b, ms + ns)
  {
    assert b.input + ms + ns == b.input + (ms + ns);
  }

  lemma {:induction false} IdsConcat(a: seq<Msg>, b: seq<Msg>)
    ensures Ids(a + b) == Ids(a) + Ids(b)
  {
    if a == [] {
      assert a + b == b;
    } else {
      IdsConcat(a[1..], b);
      assert (a + b)[1..] == a[1..] + b && (a + b)[0] == a[0];
      var h := if a[0].Data? then [a[0].id] else [];
      assert h + (Ids(a[1..]) + Ids(b)) == h + Ids(a[1..]) + Ids(b);
    }
  }

  lemma ForwardGoes(s: State, leaders: seq<Option<nat>>, m: Msg)
    requires Shape(s)
    ensures var t := Forward(s, leaders, m); Goes(s, leaders, [m], t) && t.hwm == s.hwm && t.expectChaser == s.expectChaser
  {
    if s.cur.None? && Finds(leaders) {
      var i := leaders[0].value;
      if i < |s.bps| { PushTwice(s.bps[i], [Syn], [m]); } else { assert FreshBroker([Syn]).input + [m] == [Syn] + [m]; }
    }
    if s.cur.None? && !Finds(leaders) { assert [m][1..] == []; assert s.failed + [] == s.failed; }
  }

  /** What a flush from level h replays: the levels below, down to the first that expects a chaser. */
  ghost function Held(s: State, h: nat): seq<Msg>
    requires Shape(s) && h <= s.max
  {
    if h == 0 then [] else s.buf[h - 1] + if s.expectChaser[h - 1] || h == 1 then [] else Held(s, h - 1)
  }

  lemma {:induction false} HeldAlike(s: State, t: State, h: nat)
    requires Shape(s) && Shape(t) && h <= s.max == t.max && t.expectChaser == s.expectChaser && forall k :: 0 <= k < h ==> t.buf[k] == s.buf[k]
    ensures Held(s, h) == Held(t, h)
  {
    if h > 0 { HeldAlike(s, t, h - 1); }
  }

  lemma LevelGoes(s: State, leaders: seq<Option<nat>>)
    requires Shape(s) && s.hwm > 0
    ensures var t := FlushLevel(s, leaders);
            && Goes(s, leaders, s.buf[s.hwm - 1], t) && t.max == s.max && t.expectChaser == s.expectChaser
            && t.buf == s.buf[s.hwm - 1 := []] && (s.cur.Some? || Finds(leaders) ==> t.cur.Some?)
  {
    var ms := s.buf[s.hwm - 1];
    if s.cur.None? && Finds(leaders) {
      var i := leaders[0].value;
      if i < |s.bps| { PushTwice(s.bps[i], [Syn], ms); } else { assert FreshBroker([Syn]).input + ms == [Syn] + ms; }
    }
  }

  lemma GoesThenGoes(s: State, leaders: seq<Option<nat>>, ms: seq<Msg>, t: State, more: seq<Option<nat>>, ns: seq<Msg>, u: State)
    requires Shape(s) && Shape(t) && Goes(s, leaders, ms, t) && Goes(t, more, ns, u)
    requires s.cur.Some? || Finds(leaders) || !Finds(more)
    ensures Goes(s, leaders, ms + ns, u)
  {
    hide Ids;
    if s.cur.Some? {
      PushTwice(s.bps[s.cur.value], ms, ns);
    } else if Finds(leaders) {
      var i := leaders[0].value;
      assert [Syn] + ms + ns == [Syn] + (ms + ns);
      if i < |s.bps| { PushTwice(s.bps[i], [Syn] + ms, ns); } else { assert FreshBroker([Syn] + ms).input + ns == [Syn] + (ms + ns); }
    } else {
      IdsConcat(ms, ns);
      assert s.failed + Ids(ms) + Ids(ns) == s.failed + (Ids(ms) + Ids(ns));
    }
  }

  ghost predicate NoneFound(leaders: seq<Option<nat>>) {
    forall k :: 0 <= k < |leaders| ==> leaders[k].None?
  }

  lemma GoesNothing(s: State, leaders: seq<Option<nat>>, ms: seq<Msg>, t: State)
    requires Shape(s) && Goes(s, leaders, ms, t)
    ensures Goes(s, leaders, ms + [], t)
  {
    assert ms + [] == ms;
  }

  /** A flush replays what is held, newest level first, to the leader; and if none of the lookups finds
      one, all of it fails. */
  lemma {:induction false} FlushGoes(s: State, leaders: seq<Option<nat>>)
    requires Shape(s) && s.hwm > 0 && (s.cur.Some? || Finds(leaders) || NoneFound(leaders))
    ensures Goes(s, leaders, Held(s, s.hwm), FlushRetryBuffers(s, leaders))
    decreases s.hwm
  {
    hide FlushLevel, Goes;
    LevelGoes(s, leaders);
    var t, ms := FlushLevel(s, leaders), s.buf[s.hwm - 1];
    if t.expectChaser[t.hwm] || t.hwm == 0 {
      GoesNothing(s, leaders, ms, t);
    } else {
      var more := LookupsLeft(s, leaders);
      HeldAlike(s, t, t.hwm);
      FlushGoes(t, more);
      GoesThenGoes(s, leaders, ms, t, more, Held(t, t.hwm), FlushRetryBuffers(t, more));
    }
  }

  /** The broker producer in use, or looked up for that, gets a fin and is left; the message goes to the
      leader looked up next; and its level expects a chaser. */
  ghost predicate Raises(s: State, leaders: seq<Option<nat>>, m: Msg, t: State)
    requires Shape(s) && Retries(m) > 0
  {
    exists mid :: Shape(mid) && mid.cur.None? && RaisedTo(s, leaders, m, mid) && Goes(mid, if s.cur.Some? then leaders else leaders[1..], [m], t)
                  && t.hwm == Retries(m) && Shape(t) && t.hwm < |t.expectChaser| && t.expectChaser[t.hwm]
  }

  ghost predicate RaisedTo(s: State, leaders: seq<Option<nat>>, m: Msg, mid: State)
    requires Shape(s) && Retries(m) > 0
  {
    (s.cur.Some? || Finds(leaders))
    && Goes(s, leaders, [Fin(Retries(m) - 1)], mid.(cur := Some(if s.cur.Some? then s.cur.value else if leaders[0].value < |s.bps| then leaders[0].value else |s.bps|)))
  }

  lemma RaiseGoes(s: State, leaders: seq<Option<nat>>, m: Msg)
    requires Shape(s) && s.hwm < Retries(m) <= s.max && (s.cur.Some? || Finds(leaders))
    ensures Raises(s, leaders, m, DispatchMsg(s, leaders, m))
  {
    hide Forward;
    var fin := [Fin(Retries(m) - 1)];
    var s1 := EnsureLeader(s, leaders);
    var mid := NewHighWatermark(s1, Retries(m));
    if s.cur.None? {
      var i := leaders[0].value;
      if i < |s.bps| { PushTwice(s.bps[i], [Syn], fin); } else { assert FreshBroker([Syn]).input + fin == [Syn] + fin; }
    }
    assert RaisedTo(s, leaders, m, mid);
    ForwardGoes(mid, LookupsLeft(s, leaders), m);
  }

  /** What dispatching does, by the level of the message. Lower than the highest level in use: it is
      held, or as a chaser taken note of. At that level: it goes to the leader, or as a chaser has what
      is held replayed. Higher: the broker producer in use gets a fin and is left, and the message goes
      to the leader looked up next. */
  lemma DispatchGoes(s: State, leaders: seq<Option<nat>>)
    requires Enabled(s, Dispatch(leaders))
    ensures var s0, m, t := DropAbandoned(s.(ppIn := s.ppIn[1..])), s.ppIn[0], Apply(s, Dispatch(leaders));
            var l := Retries(m);
            && (l < s.hwm && m.Fin? ==> t == s0.(expectChaser := s0.expectChaser[l := false], inFlight := s0.inFlight - 1))
            && (l < s.hwm && !m.Fin? ==> t == s0.(buf := s0.buf[l := s0.buf[l] + [m]]))
            && (l == s.hwm && !(l > 0 && m.Fin?) ==> Goes(s0, leaders, [m], t))
            && (l == s.hwm > 0 && m.Fin? && (s0.cur.Some? || Finds(leaders) || NoneFound(leaders)) ==>
                  Goes(s0, leaders, Held(s0.(expectChaser := s0.expectChaser[l := false]), l), t))
            && (l > s.hwm && (s0.cur.Some? || Finds(leaders)) ==> Raises(s0, leaders, m, t))
            && (l > s.hwm && s0.cur.None? && !Finds(leaders) ==> t.failed == s.failed + Ids([m]) && t.bps == s.bps && t.hwm == s.hwm)
  {
    hide FlushRetryBuffers, Forward, Held;
    var s0, m := DropAbandoned(s.(ppIn := s.ppIn[1..])), s.ppIn[0];
    var l := Retries(m);
    if l > s.hwm {
      assert [m][1..] == [];
      assert s.failed + [] == s.failed;
      if s0.cur.Some? || Finds(leaders) { RaiseGoes(s0, leaders, m); }
    } else if l == s.hwm {
      if l > 0 && m.Fin? {
        if s0.cur.Some? || Finds(leaders) || NoneFound(leaders) { FlushGoes(s0.(expectChaser := s0.expectChaser[l := false]), leaders); }
      } else {
        ForwardGoes(s0, leaders, m);
      }
    }
  }

  /** With the leaders found nothing fails in a dispatch. */
  lemma DispatchLosesNothing(s: State, leaders: seq<Option<nat>>)
    requires Enabled(s, Dispatch(leaders)) && |leaders| >= 2 && leaders[0].Some? && leaders[1].Some?
    ensures Apply(s, Dispatch(leaders)).failed == s.failed
  {
    DispatchGoes(s, leaders);
    var s0, m, t := DropAbandoned(s.(ppIn := s.ppIn[1..])), s.ppIn[0], Apply(s, Dispatch(leaders));
    hide Apply, Held, FlushRetryBuffers;
    if Retries(m) > s.hwm { RaiseLosesNothing(s0, leaders, m, t); }
  }

  lemma RaiseLosesNothing(s: State, leaders: seq<Option<nat>>, m: Msg, t: State)
    requires Shape(s) && Retries(m) > 0 && Raises(s, leaders, m, t) && |leaders| >= 2 && leaders[0].Some? && leaders[1].Some?
    ensures t.failed == s.failed
  {
    var next := if s.cur.Some? then leaders else leaders[1..];
    var mid :| Shape(mid) && mid.cur.None? && RaisedTo(s, leaders, m, mid) && Goes(mid, next, [m], t);
    assert Finds(next);
  }

  // ------------------------------------------------------------------------- the other steps

  /** A new message is numbered; it joins the queue of the partition producer, unless it is refused at
      once or the producer is shutting down, and then it fails. */
  lemma SubmitGoes(s: State, accepted: bool)
    requires Enabled(s, Submit(accepted))
    ensures var t := Apply(s, Submit(accepted));
            && t.submitted == s.submitted + 1
            && (accepted && !s.shuttingDown ==> t.ppIn == s.ppIn + [Data(s.submitted, 0)] && t.failed == s.failed)
            && (!accepted || s.shuttingDown ==> t.ppIn == s.ppIn && t.failed == s.failed + [s.submitted])
  {
  }

  lemma BackGoes(s: State, m: Msg)
    ensures var t := RetryMessage(s, m);
            && t.retryQ == s.retryQ + Returned([m], s.max) && t.failed == s.failed + Exhausted([m], s.max)
            && t.bps == s.bps && t.ppIn == s.ppIn
  {
    assert [m][1..] == [];
    assert s.retryQ + [] == s.retryQ && s.failed + [] == s.failed;
  }

  /** What a broker producer does with the next message it gets: a syn opens it; while it sends back, and
      for a fin always, the message goes back; else it joins the buffer, or fails if it cannot. */
  ghost predicate Taken(s: State, i: nat, added: bool, t: State)
    requires i < |s.bps| && s.bps[i].input != []
  {
    var b := s.bps[i];
    var m, b1 := b.input[0], b.(input := b.input[1..], retrying := b.retrying && !b.input[0].Syn? && !(b.input[0].Fin? && !b.closing));
    && t.ppIn == s.ppIn
    && if m.Syn? then t.bps == s.bps[i := b1] && t.failed == s.failed && t.retryQ == s.retryQ
       else if b.closing || b.retrying || m.Fin? then
         t.bps == s.bps[i := b1] && t.retryQ == s.retryQ + Returned([m], s.max) && t.failed == s.failed + Exhausted([m], s.max)
       else
         && t.retryQ == s.retryQ && t.bps == s.bps[i := if added then b1.(buffer := b.buffer + [m]) else b1]
         && t.failed == if added then s.failed else s.failed + [m.id]
  }

  lemma TakeGoes(s: State, i: nat, added: bool)
    requires Enabled(s, Take(i, added))
    ensures Taken(s, i, added, Apply(s, Take(i, added)))
  {
    hide RetryMessage, Returned, Exhausted;
    var b := s.bps[i];
    var m, b1 := b.input[0], b.(input := b.input[1..]);
    if !m.Syn? && NeedsRetry(b) {
      BackGoes(s.(bps := s.bps[i := if !b.closing && m.Fin? then b1.(retrying := false) else b1]), m);
    } else if m.Fin? {
      BackGoes(s.(bps := s.bps[i := b1]), m);
    }
  }

  /** Messages that come back join the queue in order, and a buffer is sent as a whole. */
  lemma FeedAndFlushGo(s: State, i: nat)
    ensures Enabled(s, Feed) ==> var t := Apply(s, Feed);
              t.ppIn + t.retryQ == s.ppIn + s.retryQ && |t.ppIn| == |s.ppIn| + 1 && t.failed == s.failed && t.bps == s.bps
    ensures Enabled(s, Flush(i)) ==> var t := Apply(s, Flush(i));
              t.bps[i].sent == s.bps[i].buffer && t.bps[i].buffer == [] && t.bps[i].input == s.bps[i].input && t.failed == s.failed
  {
  }

  // -------------------------------------------------------------------------- who fails, and why

  /** The step is a reason for the message to fail: it was refused when it was submitted, no leader was
      found, it does not fit into a set, it is at the retry limit, or the broker refused it. */
  ghost predicate Reason(s: State, step: Step, id: nat)
    requires Enabled(s, step)
  {
    match step
    case Submit(accepted) => id == s.submitted && (!accepted || s.shuttingDown)
    case Dispatch(leaders) => !(|leaders| >= 2 && leaders[0].Some? && leaders[1].Some?)
    case Take(i, added) =>
      var m := s.bps[i].input[0];
      m.Data? && m.id == id && if NeedsRetry(s.bps[i]) then m.retries >= s.max else !added
    case Emit(i) => var m := s.bps[i].bounce[0]; m.Data? && m.id == id && m.retries >= s.max
    case Respond(i, reply) => id in Ids(s.bps[i].sent) && (reply.Refused? || reply.Dropped? || (reply.Retriable? && s.max == 0))
    case _ => false
  }

  lemma FailsForReason(s: State, step: Step, id: nat)
    requires Enabled(s, step) && id in Apply(s, step).failed && id !in s.failed
    ensures Reason(s, step, id)
  {
    hide Apply, Ids;
    match step {
      case Submit(accepted) => SubmitGoes(s, accepted);
      case Dispatch(leaders) =>
        if |leaders| >= 2 && leaders[0].Some? && leaders[1].Some? { DispatchLosesNothing(s, leaders); }
      case Take(i, added) =>
        TakeGoes(s, i, added);
        OneExhausted(s.bps[i].input[0], s.max);
      case Emit(i) =>
        EmitReturns(s, i);
        OneExhausted(s.bps[i].bounce[0], s.max);
      case Respond(i, reply) =>
        if reply.Acked? { AckedSucceeds(s, i); } else if reply.Retriable? && s.max > 0 { RetriableHolds(s, i, false); } else { RefusedFails(s, i, reply); }
      case ConnectionLost(i) => RetriableHolds(s, i, true);
      case Feed => FeedAndFlushGo(s, 0);
      case Flush(i) => FeedAndFlushGo(s, i);
      case Shutdown => ControlFails(s, step);
      case TakeShutdown => ControlFails(s, step);
      case CloseChannels => ControlFails(s, step);
    }
  }

  /** Shutting down settles nothing by itself; it is noted, and then new messages are refused. */
  lemma ControlFails(s: State, step: Step)
    requires Enabled(s, step) && (step.Shutdown? || step.TakeShutdown? || step.CloseChannels?)
    ensures var t := Apply(s, step);
            && t.failed == s.failed && t.bps == s.bps && t.ppIn == s.ppIn && t.shutdownSent == (s.shutdownSent || step.Shutdown?)
            && t.shuttingDown == (s.shuttingDown || step.TakeShutdown?) && t.closed == (s.closed || step.CloseChannels?)
  {
  }

  lemma OneExhausted(m: Msg, max: nat)
    ensures Exhausted([m], max) == if m.Data? && m.retries >= max then [m.id] else []
  {
    assert [m][1..] == [];
  }

  // ------------------------------------------------------------------------------- over runs

  lemma {:induction false} PrefixValid(s: State, steps: seq<Step>, k: nat)
    requires ValidRun(s, steps) && k <= |steps|
    ensures ValidRun(s, steps[..k])
    decreases k
  {
    if k > 0 {
      PrefixValid(Apply(s, steps[0]), steps[1..], k - 1);
      assert steps[..k][1..] == steps[1..][..k - 1];
    }
  }

  /** The state before the k-th step of a run. */
  ghost function Before(s: State, steps: seq<Step>, k: nat): State
    requires ValidRun(s, steps) && k <= |steps|
  {
    PrefixValid(s, steps, k);
    Run(s, steps[..k])
  }

  lemma BeforeNext(s: State, steps: seq<Step>, k: nat)
    requires ValidRun(s, steps) && steps != [] && k < |steps|
    ensures Before(s, steps, 0) == s && Before(s, steps, k + 1) == Before(Apply(s, steps[0]), steps[1..], k)
  {
    PrefixValid(s, steps, k + 1);
    PrefixValid(Apply(s, steps[0]), steps[1..], k);
    assert steps[..k + 1][1..] == steps[1..][..k];
  }

  /** The k-th step is a broker's word that it stored a set with this message in it. */
  ghost predicate StoredBy(s: State, steps: seq<Step>, k: nat, id: nat)
    requires ValidRun(s, steps) && k < |steps|
  {
    steps[k].Respond? && steps[k].reply == Acked && steps[k].i < |Before(s, steps, k).bps|
    && exists r :: Data(id, r) in Before(s, steps, k).bps[steps[k].i].sent
  }

  lemma {:induction false} IdsHas(q: seq<Msg>, id: nat)
    ensures id in Ids(q) <==> exists r :: Data(id, r) in q
  {
    if q != [] {
      IdsHas(q[1..], id);
      assert q == [q[0]] + q[1..];
      if q[0].Data? && q[0].id == id { assert Data(id, q[0].retries) in q; }
      if exists r :: Data(id, r) in q[1..] { var r :| Data(id, r) in q[1..]; assert Data(id, r) in q; }
    }
  }

  lemma FirstStored(s: State, steps: seq<Step>, id: nat)
    requires ValidRun(s, steps) && steps != []
    ensures StoredBy(s, steps, 0, id) <==> id in Acknowledged(s, steps[0])
  {
    BeforeNext(s, steps, 0);
    hide Run, Apply;
    if steps[0].Respond? { IdsHas(s.bps[steps[0].i].sent, id); }
  }

  lemma LaterStored(s: State, steps: seq<Step>, k: nat, id: nat)
    requires ValidRun(s, steps) && steps != [] && k < |steps| - 1
    ensures StoredBy(s, steps, k + 1, id) <==> StoredBy(Apply(s, steps[0]), steps[1..], k, id)
  {
    BeforeNext(s, steps, k);
    hide Run, Apply;
  }

  ghost predicate Stored(s: State, steps: seq<Step>, id: nat)
    requires ValidRun(s, steps)
  {
    exists k :: 0 <= k < |steps| && StoredBy(s, steps, k, id)
  }

  lemma StoredSplits(s: State, steps: seq<Step>, id: nat)
    requires ValidRun(s, steps) && steps != []
    ensures Stored(s, steps, id) <==> id in Acknowledged(s, steps[0]) || Stored(Apply(s, steps[0]), steps[1..], id)
  {
    FirstStored(s, steps, id);
    var t, rest := Apply(s, steps[0]), steps[1..];
    hide Acknowledged, StoredBy, Run, Apply;
    forall k | 0 <= k < |rest| ensures StoredBy(s, steps, k + 1, id) <==> StoredBy(t, rest, k, id) { LaterStored(s, steps, k, id); }
    if Stored(s, steps, id) && !StoredBy(s, steps, 0, id) {
      var k :| 0 <= k < |steps| && StoredBy(s, steps, k, id);
      assert StoredBy(t, rest, k - 1, id);
    }
    if Stored(t, rest, id) {
      var k :| 0 <= k < |rest| && StoredBy(t, rest, k, id);
      assert StoredBy(s, steps, k + 1, id);
    }
  }

  lemma {:induction false} AckedOverRun(s: State, steps: seq<Step>, id: nat)
    requires ValidRun(s, steps)
    ensures id in Run(s, steps).acked <==> id in s.acked || Stored(s, steps, id)
    decreases |steps|
  {
    if steps != [] {
      AckedBy(s, steps[0]);
      StoredSplits(s, steps, id);
      hide Acknowledged, Stored, Apply;
      AckedOverRun(Apply(s, steps[0]), steps[1..], id);
    }
  }

  /** A message is acknowledged in a run if and only if a broker said that it stored a set while the
      message was in it. */
  lemma AckedIffStored(max: nat, prefetched: bool, steps: seq<Step>, id: nat)
    requires ValidRun(Init(max, prefetched), steps)
    ensures id in Run(Init(max, prefetched), steps).acked <==> Stored(Init(max, prefetched), steps, id)
  {
    hide Stored, Run;
    AckedOverRun(Init(max, prefetched), steps, id);
  }

  /** A message fails in a run only by a step that is a reason for it. */
  lemma {:induction false} FailedOverRun(s: State, steps: seq<Step>, id: nat)
    requires ValidRun(s, steps) && id in Run(s, steps).failed && id !in s.failed
    ensures exists k :: 0 <= k < |steps| && FailedBy(s, steps, k, id)
    decreases |steps|
  {
    var t := Apply(s, steps[0]);
    BeforeNext(s, steps, 0);
    hide Apply, Reason;
    if id in t.failed {
      FailsForReason(s, steps[0], id);
      assert FailedBy(s, steps, 0, id);
    } else {
      FailedOverRun(t, steps[1..], id);
      var k :| 0 <= k < |steps[1..]| && FailedBy(t, steps[1..], k, id);
      BeforeNext(s, steps, k);
      assert FailedBy(s, steps, k + 1, id);
    }
  }

  ghost predicate FailedBy(s: State, steps: seq<Step>, k: nat, id: nat)
    requires ValidRun(s, steps) && k < |steps|
  {
    Enabled(Before(s, steps, k), steps[k]) && Reason(Before(s, steps, k), steps[k], id)
  }
}
