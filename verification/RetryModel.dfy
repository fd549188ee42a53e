/** One partition's retry protocol as a step system.

    The partition producer, the retry handler and the broker producers run as separate goroutines
    that talk over FIFO channels. A state holds the contents of every channel and buffer a message
    of this partition can sit in; a step is one atomic action of one goroutine. Everything the
    outside world decides (leader lookups, broker replies, lost connections, flush timing) is an
    argument of the step, so a theorem about all step sequences is a theorem about all runs. */
module RetryModel {
  datatype Option<+T> = None | Some(value: T)

  /** A data message carries its submission number as `id`. `Syn` and `Fin` are the markers the
      partition producer sends when it opens and when it leaves a broker producer. */
  datatype Msg = Data(id: nat, retries: nat) | Syn | Fin(retries: nat)

  function Retries(m: Msg): nat {
    if m.Syn? then 0 else m.retries
  }

  /** What one broker producer holds of this partition, from oldest to newest message:
      `bounce` (passed to retryMessages, not yet on the retries channel), `sent` (in the one
      outstanding produce set), `buffer` (the set being filled) and the `input` channel. */
  datatype BrokerProducer = BrokerProducer(
    bounce: seq<Msg>, sent: seq<Msg>, buffer: seq<Msg>, input: seq<Msg>,
    retrying: bool, closing: bool, abandoned: bool)

  /** `buf` and `expectChaser` are the two halves of retryState. `finVia[l]` is an auxiliary
      variable: the broker producer the last fin of level l was sent to. */
  datatype State = State(
    max: nat,
    submitted: nat, ppIn: seq<Msg>, retryQ: seq<Msg>,
    hwm: nat, buf: seq<seq<Msg>>, expectChaser: seq<bool>, finVia: seq<nat>,
    cur: Option<nat>, bps: seq<BrokerProducer>,
    acked: seq<nat>, failed: seq<nat>, leakedFins: nat,
    inFlight: int, shutdownSent: bool, shuttingDown: bool, closed: bool)

  datatype Reply =
    | Acked      // no error, or an error code that counts as success
    | Retriable  // one of the seven retriable error codes
    | Refused    // any other error code
    | Dropped    // the response lacks the block, or the request could not be encoded

  datatype Step =
    | Submit(accepted: bool)
    | Feed
    | Dispatch(leaders: seq<Option<nat>>)
    | Take(i: nat, added: bool)
    | Emit(i: nat)
    | Flush(i: nat)
    | Respond(i: nat, reply: Reply)
    | ConnectionLost(i: nat)
    | Shutdown
    | TakeShutdown
    | CloseChannels

  predicate Shape(s: State) {
    && |s.buf| == |s.expectChaser| == |s.finVia| == s.max + 1
    && s.hwm <= s.max
    && (s.cur.Some? ==> s.cur.value < |s.bps|)
  }

  function FreshBroker(input: seq<Msg>): BrokerProducer {
    BrokerProducer([], [], [], input, false, false, false)
  }

  /** A new partition producer; `prefetched` says whether the leader was already known. */
  function Init(max: nat, prefetched: bool): (s: State)
    ensures Shape(s)
  {
    State(max, 0, [], [], 0, seq(max + 1, _ => []), seq(max + 1, _ => false), seq(max + 1, _ => 0),
          if prefetched then Some(0) else None, if prefetched then [FreshBroker([Syn])] else [],
          [], [], 0, if prefetched then 1 else 0, false, false, false)
  }

  function Ids(q: seq<Msg>): (ids: seq<nat>)
    ensures |ids| <= |q|
  {
    if q == [] then [] else (if q[0].Data? then [q[0].id] else []) + Ids(q[1..])
  }

  // ---------------------------------------------------------------- partition producer

  /** returnError: a data message fails; a fin would reach the user's error channel. */
  function ReturnError(s: State, m: Msg): State {
    if m.Data? then s.(failed := s.failed + [m.id], inFlight := s.inFlight - 1)
    else s.(leakedFins := s.leakedFins + 1, inFlight := s.inFlight - 1)
  }

  function ReturnErrors(s: State, ms: seq<Msg>): State {
    s.(failed := s.failed + Ids(ms), leakedFins := s.leakedFins + |ms| - |Ids(ms)|, inFlight := s.inFlight - |ms|)
  }

  function Push(b: BrokerProducer, ms: seq<Msg>): BrokerProducer {
    b.(input := b.input + ms)
  }

  function SendCur(s: State, ms: seq<Msg>): (r: State)
    requires Shape(s) && s.cur.Some?
    ensures Shape(r)
  {
    s.(bps := s.bps[s.cur.value := Push(s.bps[s.cur.value], ms)])
  }

  /** A successful updateLeader: the leader's broker producer is an existing one (`i` in range) or
      a new one, and it is sent a syn. */
  function OpenLeader(s: State, i: nat): (r: State)
    requires Shape(s)
    ensures Shape(r) && r.cur.Some?
  {
    if i < |s.bps| then
      s.(bps := s.bps[i := Push(s.bps[i], [Syn])], cur := Some(i), inFlight := s.inFlight + 1)
    else
      s.(bps := s.bps + [FreshBroker([Syn])], cur := Some(|s.bps|), inFlight := s.inFlight + 1)
  }

  /** updateLeader when no broker producer is selected; `leaders[0]` is the outcome of the lookup. */
  function EnsureLeader(s: State, leaders: seq<Option<nat>>): (r: State)
    requires Shape(s)
    ensures Shape(r)
  {
    if s.cur.Some? || leaders == [] || leaders[0].None? then s else OpenLeader(s, leaders[0].value)
  }

  /** The lookups left after EnsureLeader. */
  function LookupsLeft(s: State, leaders: seq<Option<nat>>): seq<Option<nat>> {
    if s.cur.Some? || leaders == [] then leaders else leaders[1..]
  }

  function Forward(s: State, leaders: seq<Option<nat>>, m: Msg): (r: State)
    requires Shape(s)
    ensures Shape(r)
  {
    var s1 := EnsureLeader(s, leaders);
    if s1.cur.None? then ReturnError(s1, m) else SendCur(s1, [m])
  }

  function NewHighWatermark(s: State, h: nat): (r: State)
    requires Shape(s) && s.cur.Some? && 1 <= h <= s.max
    ensures Shape(r)
  {
    var s1 := SendCur(s, [Fin(h - 1)]);
    s1.(hwm := h, expectChaser := s.expectChaser[h := true], finVia := s.finVia[h := s.cur.value],
        cur := None, inFlight := s.inFlight + 1)
  }

  /** One turn of the loop in flushRetryBuffers. */
  function FlushLevel(s: State, leaders: seq<Option<nat>>): (r: State)
    requires Shape(s) && s.hwm > 0
    ensures Shape(r) && r.hwm == s.hwm - 1
  {
    var k := s.hwm - 1;
    var s1 := EnsureLeader(s.(hwm := k), leaders);
    var s2 := if s1.cur.None? then ReturnErrors(s1, s.buf[k]) else SendCur(s1, s.buf[k]);
    s2.(buf := s.buf[k := []])
  }

  function FlushRetryBuffers(s: State, leaders: seq<Option<nat>>): (r: State)
    requires Shape(s) && s.hwm > 0
    ensures Shape(r)
    decreases s.hwm
  {
    var s1 := FlushLevel(s, leaders);
    if s1.expectChaser[s1.hwm] || s1.hwm == 0 then s1
    else FlushRetryBuffers(s1, LookupsLeft(s, leaders))
  }

  /** The abandoned check at the head of the dispatch loop. */
  function DropAbandoned(s: State): (r: State)
    requires Shape(s)
    ensures Shape(r)
  {
    if s.cur.Some? && s.bps[s.cur.value].abandoned then s.(cur := None) else s
  }

  /** One turn of partitionProducer.dispatch on message `m`. */
  function DispatchMsg(s: State, leaders: seq<Option<nat>>, m: Msg): (r: State)
    requires Shape(s) && Retries(m) <= s.max
    ensures Shape(r)
  {
    var l := Retries(m);
    if l > s.hwm then
      var s1 := EnsureLeader(s, leaders);
      if s1.cur.None? then ReturnError(s1, m)
      else Forward(NewHighWatermark(s1, l), LookupsLeft(s, leaders), m)
    else if l < s.hwm then
      if m.Fin? then s.(expectChaser := s.expectChaser[l := false], inFlight := s.inFlight - 1)
      else s.(buf := s.buf[l := s.buf[l] + [m]])
    else if s.hwm > 0 && m.Fin? then
      var s1 := FlushRetryBuffers(s.(expectChaser := s.expectChaser[s.hwm := false]), leaders);
      s1.(inFlight := s1.inFlight - 1)
    else
      Forward(s, leaders, m)
  }

  // ------------------------------------------------------------------- broker producer

  function RetryMessage(s: State, m: Msg): State {
    if Retries(m) >= s.max then ReturnError(s, m)
    else s.(retryQ := s.retryQ + [Bump(m)])
  }

  function Bump(m: Msg): Msg {
    match m
    case Data(id, r) => Data(id, r + 1)
    case Syn => Syn
    case Fin(r) => Fin(r + 1)
  }

  predicate NeedsRetry(b: BrokerProducer) {
    b.closing || b.retrying
  }

  /** The input case of brokerProducer.run on the head of the input channel. Waiting for space is
      the flush, respond and take steps in any order, with the message still at the head. */
  function TakeInput(s: State, i: nat, added: bool): (r: State)
    requires Shape(s) && i < |s.bps| && s.bps[i].input != []
    ensures Shape(r)
  {
    var b := s.bps[i];
    var m := b.input[0];
    var b1 := b.(input := b.input[1..]);
    if m.Syn? then
      s.(bps := s.bps[i := b1.(retrying := false)], inFlight := s.inFlight - 1)
    else if NeedsRetry(b) then
      RetryMessage(s.(bps := s.bps[i := if !b.closing && m.Fin? then b1.(retrying := false) else b1]), m)
    else if m.Fin? then
      RetryMessage(s.(bps := s.bps[i := b1]), m)
    else if added then
      s.(bps := s.bps[i := b1.(buffer := b.buffer + [m])])
    else
      ReturnError(s.(bps := s.bps[i := b1]), m)
  }

  /** The blocks of this partition in handleSuccess. */
  function HandleReply(s: State, i: nat, reply: Reply): (r: State)
    requires Shape(s) && i < |s.bps|
    ensures Shape(r)
  {
    var b := s.bps[i];
    match reply
    case Acked =>
      s.(bps := s.bps[i := b.(sent := [])], acked := s.acked + Ids(b.sent), inFlight := s.inFlight - |b.sent|)
    case Retriable =>
      if s.max == 0 then
        ReturnErrors(s.(bps := s.bps[i := b.(sent := [], abandoned := true)]), b.sent)
      else
        s.(bps := s.bps[i := b.(bounce := b.sent + b.buffer, sent := [], buffer := [], retrying := true)])
    case Refused =>
      ReturnErrors(s.(bps := s.bps[i := b.(sent := [], abandoned := b.abandoned || s.max == 0)]), b.sent)
    case Dropped =>
      ReturnErrors(s.(bps := s.bps[i := b.(sent := [])]), b.sent)
  }

  /** handleError on a transport error. */
  function LoseConnection(s: State, i: nat): (r: State)
    requires Shape(s) && i < |s.bps|
    ensures Shape(r)
  {
    var b := s.bps[i];
    s.(bps := s.bps[i := b.(bounce := b.sent + b.buffer, sent := [], buffer := [], closing := true,
                            abandoned := b.abandoned || s.max == 0)])
  }

  // ---------------------------------------------------------------------------- steps

  predicate Enabled(s: State, step: Step) {
    && Shape(s)
    && !s.closed
    && match step
       case Submit(_) => true
       case Feed => s.retryQ != []
       case Dispatch(_) => s.ppIn != [] && Retries(s.ppIn[0]) <= s.max
       case Take(i, _) => i < |s.bps| && s.bps[i].bounce == [] && s.bps[i].input != []
       case Emit(i) => i < |s.bps| && s.bps[i].bounce != []
       case Flush(i) => i < |s.bps| && s.bps[i].bounce == [] && s.bps[i].sent == [] && s.bps[i].buffer != []
       case Respond(i, _) => i < |s.bps| && s.bps[i].bounce == [] && s.bps[i].sent != []
       case ConnectionLost(i) => i < |s.bps| && s.bps[i].bounce == []
       case Shutdown => !s.shutdownSent
       case TakeShutdown => s.shutdownSent && !s.shuttingDown
       case CloseChannels => s.shutdownSent && s.inFlight == 0
  }

  function Apply(s: State, step: Step): (r: State)
    requires Enabled(s, step)
    ensures Shape(r)
  {
    match step
    case Submit(accepted) =>
      if s.shuttingDown || !accepted then
        s.(submitted := s.submitted + 1, failed := s.failed + [s.submitted])
      else
        s.(submitted := s.submitted + 1, ppIn := s.ppIn + [Data(s.submitted, 0)], inFlight := s.inFlight + 1)
    case Feed => s.(ppIn := s.ppIn + [s.retryQ[0]], retryQ := s.retryQ[1..])
    case Dispatch(leaders) => DispatchMsg(DropAbandoned(s.(ppIn := s.ppIn[1..])), leaders, s.ppIn[0])
    case Take(i, added) => TakeInput(s, i, added)
    case Emit(i) =>
      var b := s.bps[i];
      RetryMessage(s.(bps := s.bps[i := b.(bounce := b.bounce[1..])]), b.bounce[0])
    case Flush(i) =>
      var b := s.bps[i];
      s.(bps := s.bps[i := b.(sent := b.buffer, buffer := [])])
    case Respond(i, reply) => HandleReply(s, i, reply)
    case ConnectionLost(i) => LoseConnection(s, i)
    case Shutdown => s.(shutdownSent := true, inFlight := s.inFlight + 1)
    case TakeShutdown => s.(shuttingDown := true, inFlight := s.inFlight - 1)
    case CloseChannels => s.(closed := true)
  }

  predicate ValidRun(s: State, steps: seq<Step>)
    decreases |steps|
  {
    steps == [] || (Enabled(s, steps[0]) && ValidRun(Apply(s, steps[0]), steps[1..]))
  }

  function Run(s: State, steps: seq<Step>): State
    requires ValidRun(s, steps)
    decreases |steps|
  {
    if steps == [] then s else Run(Apply(s, steps[0]), steps[1..])
  }

  predicate Increasing(q: seq<nat>) {
    forall j, k :: 0 <= j < k < |q| ==> q[j] < q[k]
  }
}
