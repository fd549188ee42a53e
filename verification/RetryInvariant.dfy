/** What every step of the retry protocol keeps, stated on a view of the state that forgets in
    which part of a broker producer a message sits. */
module RetryInvariant {
  import opened RetryModel

  // ------------------------------------------------------------------------- the view

  ghost function Pipe(b: BrokerProducer): seq<Msg> {
    b.bounce + b.sent + b.buffer + b.input
  }

  ghost function Bumped(q: seq<Msg>): (r: seq<Msg>)
    ensures |r| == |q| && forall k :: 0 <= k < |q| ==> r[k] == Bump(q[k])
  {
    seq(|q|, k requires 0 <= k < |q| => Bump(q[k]))
  }

  /** `q` is what is on its way to the partition producer, in arrival order. `us[i]` is what broker
      producer i would send back if it returned everything: its messages, oldest first, each at
      the retry level it would then have. */
  datatype View = View(
    max: nat, submitted: nat, q: seq<Msg>, us: seq<seq<Msg>>,
    hwm: nat, buf: seq<seq<Msg>>, ch: seq<bool>, via: seq<nat>,
    cur: Option<nat>, acked: seq<nat>)

  ghost function Us(bps: seq<BrokerProducer>): (us: seq<seq<Msg>>)
    ensures |us| == |bps| && forall i :: 0 <= i < |bps| ==> us[i] == Bumped(Pipe(bps[i]))
  {
    seq(|bps|, i requires 0 <= i < |bps| => Bumped(Pipe(bps[i])))
  }

  ghost function ViewOf(s: State): View {
    View(s.max, s.submitted, s.ppIn + s.retryQ, Us(s.bps), s.hwm, s.buf, s.expectChaser, s.finVia, s.cur, s.acked)
  }

  ghost predicate WellShaped(v: View) {
    && |v.buf| == |v.ch| == |v.via| == v.max + 1
    && v.hwm <= v.max
    && (v.cur.Some? ==> v.cur.value < |v.us|)
  }

  // ------------------------------------------------------------------------- visits

  /** The lowest level from `l` up that still expects its fin; |ch| when there is none. Messages
      whose levels have the same owner belong to the same visit to a broker producer; the visit
      with owner |ch| is the one still open. */
  ghost function Owner(ch: seq<bool>, l: nat): (o: nat)
    requires l <= |ch|
    ensures l <= o <= |ch|
    ensures o < |ch| ==> ch[o]
    ensures forall k :: l <= k < o ==> !ch[k]
    decreases |ch| - l
  {
    if l == |ch| || ch[l] then l else Owner(ch, l + 1)
  }

  // ----------------------------------------------------------- properties of sequences

  /** Messages of one level keep submission order. */
  ghost predicate Fifo(q: seq<Msg>) {
    forall j, k :: 0 <= j < k < |q| && q[j].Data? && q[k].Data? && q[j].retries == q[k].retries ==> q[j].id < q[k].id
  }

  ghost predicate Before(q: seq<Msg>, u: seq<Msg>) {
    forall x, y :: x in q && y in u && x.Data? && y.Data? && x.retries == y.retries ==> x.id < y.id
  }

  /** Above level `h`, levels never rise along the sequence. */
  ghost predicate Falling(q: seq<Msg>, h: nat) {
    forall j, k :: 0 <= j < k < |q| && q[j].Data? && q[k].Data? && q[j].retries > h && q[k].retries > h
      ==> q[j].retries >= q[k].retries
  }

  ghost predicate Above(q: seq<Msg>, u: seq<Msg>, h: nat) {
    forall x, y :: x in q && y in u && x.Data? && y.Data? && x.retries > h && y.retries > h ==> x.retries >= y.retries
  }

  /** Messages of visit `f` exist in the sequence. */
  ghost predicate OfVisit(x: Msg, ch: seq<bool>, f: nat) {
    x.Data? && 0 < x.retries <= |ch| && Owner(ch, x.retries) == f
  }

  /** Behind a fin nothing is left of the visit that fin closes. */
  ghost predicate FinLast(q: seq<Msg>, ch: seq<bool>) {
    forall j, k :: 0 <= j < k < |q| && q[j].Fin? ==> !OfVisit(q[k], ch, q[j].retries)
  }

  /** Messages of the open visit are never in front of a marker. */
  ghost predicate MarkersFirst(u: seq<Msg>, ch: seq<bool>) {
    forall j, k :: 0 <= j < k < |u| && !u[k].Data? ==> !OfVisit(u[j], ch, |ch|)
  }

  ghost predicate FinsDistinct(q: seq<Msg>) {
    forall j, k :: 0 <= j < k < |q| && q[j].Fin? ==> q[j] != q[k]
  }

  /** At most one fin, and no syn in front of it. */
  ghost predicate OneFin(u: seq<Msg>) {
    forall j, k :: 0 <= j < k < |u| && u[k].Fin? ==> u[j].Data?
  }

  ghost predicate AllData(q: seq<Msg>) {
    forall m :: m in q ==> m.Data?
  }

  // ------------------------------------------------------------------- the invariant

  ghost predicate Levels(v: View)
    requires WellShaped(v)
  {
    && (forall m :: m in v.q ==> !m.Syn? && m.retries <= v.max && (m.Fin? ==> 1 <= m.retries))
    && (forall i, m :: 0 <= i < |v.us| && m in v.us[i] && m.Data? ==> 1 <= m.retries <= v.max + 1)
    && (forall i, m :: 0 <= i < |v.us| && m in v.us[i] && m.Fin? ==> 1 <= m.retries <= v.max)
    && (forall l, m :: 0 <= l <= v.max && m in v.buf[l] ==> m.Data? && m.retries == l)
    && (forall l :: v.hwm <= l <= v.max ==> v.buf[l] == [])
    && !v.ch[0]
    && (forall l :: v.hwm < l <= v.max ==> !v.ch[l])
  }

  /** `x` is a live data message and x.retries the level at which the partition producer will next
      see it, or has buffered it. */
  ghost predicate Lives(v: View, x: Msg) {
    && x.Data?
    && (x in v.q || InBrokers(v.us, x) || (x.retries < |v.buf| && x in v.buf[x.retries]))
  }

  ghost predicate InBrokers(us: seq<seq<Msg>>, x: Msg) {
    exists i :: 0 <= i < |us| && x in us[i]
  }

  /** Retry levels sort the live messages: a higher level means an earlier submission, and every
      live message was submitted after every acknowledged one. */
  ghost predicate Sorted(v: View) {
    && (forall x, y :: Lives(v, x) && Lives(v, y) && x.retries > y.retries ==> x.id < y.id)
    && (forall x :: Lives(v, x) ==> x.id < v.submitted)
    && (forall x, k :: Lives(v, x) && 0 <= k < |v.acked| ==> v.acked[k] < x.id)
    && (forall k :: 0 <= k < |v.acked| ==> v.acked[k] < v.submitted)
    && Increasing(v.acked)
  }

  ghost predicate Lines(v: View) {
    && Fifo(v.q)
    && (forall i :: 0 <= i < |v.us| ==> Fifo(v.us[i]) && Before(v.q, v.us[i]))
    && (forall l :: 0 <= l < |v.buf| ==> Fifo(v.buf[l]) && Before(v.buf[l], v.q))
    && (forall l, i :: 0 <= l < |v.buf| && 0 <= i < |v.us| ==> Before(v.buf[l], v.us[i]))
  }

  ghost predicate Falls(v: View)
    requires WellShaped(v)
  {
    && Falling(v.q, v.hwm)
    && (v.cur.Some? ==> Falling(v.us[v.cur.value], v.hwm) && Above(v.q, v.us[v.cur.value], v.hwm))
  }

  /** Messages of the open visit are above hwm, and in the current broker producer or back from it.
      Any other message in a broker producer belongs to a visit closed by a fin to the same one. */
  ghost predicate Visits(v: View)
    requires WellShaped(v)
  {
    && (forall x :: x in v.q && OfVisit(x, v.ch, |v.ch|) ==> x.retries > v.hwm && v.cur.Some?)
    && (forall i, x :: 0 <= i < |v.us| && x in v.us[i] && OfVisit(x, v.ch, |v.ch|) ==> x.retries > v.hwm && v.cur == Some(i))
    && (forall i, x, f :: 0 <= i < |v.us| && 0 <= f <= v.max && x in v.us[i] && OfVisit(x, v.ch, f) ==> v.via[f] == i)
  }

  ghost predicate FinOrder(v: View) {
    && FinLast(v.q, v.ch) && FinsDistinct(v.q)
    && (forall i :: 0 <= i < |v.us| ==> FinLast(v.us[i], v.ch) && MarkersFirst(v.us[i], v.ch) && OneFin(v.us[i]))
  }

  ghost predicate FinExpected(v: View)
    requires WellShaped(v)
  {
    && (forall f: nat :: Fin(f) in v.q ==> f <= v.max && v.ch[f])
    && (forall i, f: nat :: 0 <= i < |v.us| && Fin(f) in v.us[i] ==> f <= v.max && v.ch[f] && v.via[f] == i && Fin(f) !in v.q)
  }

  /** When a fin is on its way back, no broker producer holds anything of its visit. */
  ghost predicate FinAlone(v: View) {
    forall i, f: nat, x :: 0 <= i < |v.us| && Fin(f) in v.q && x in v.us[i] ==> !OfVisit(x, v.ch, f)
  }

  ghost predicate FinPresent(v: View)
    requires WellShaped(v)
  {
    forall f :: 0 <= f <= v.max && v.ch[f] ==> v.via[f] < |v.us| && (Fin(f) in v.q || Fin(f) in v.us[v.via[f]])
  }

  /** A level expects a fin exactly while one fin of that level is on its way, and that fin is the
      last message of its visit. */
  ghost predicate Fins(v: View)
    requires WellShaped(v)
  {
    FinOrder(v) && FinExpected(v) && FinAlone(v) && FinPresent(v)
  }

  ghost predicate ViewInv(v: View) {
    WellShaped(v) && Levels(v) && Sorted(v) && Lines(v) && Falls(v) && Visits(v) && Fins(v)
  }

  /** A broker producer holds unacknowledged messages only while it is healthy and nothing but data
      follows them, and it stays unhealthy until a fin in its input has passed. */
  ghost predicate Health(b: BrokerProducer, max: nat) {
    && AllData(b.bounce) && AllData(b.sent) && AllData(b.buffer)
    && (b.sent + b.buffer != [] ==> !NeedsRetry(b) && AllData(b.input))
    && (b.bounce != [] || (exists m :: m in b.input && m.Fin?) ==> NeedsRetry(b))
    && (max > 0 ==> !b.abandoned)
  }

  /** When messages of the open visit have come back, the current broker producer sends back all
      that follows. */
  ghost predicate BrokenIfReturned(s: State)
    requires Shape(s)
  {
    forall x :: x in s.ppIn + s.retryQ && OfVisit(x, s.expectChaser, |s.expectChaser|) && s.cur.Some? ==>
      NeedsRetry(s.bps[s.cur.value]) && AllData(s.bps[s.cur.value].input)
  }

  /** The invariant inside flushRetryBuffers, where hwm may stand above the highest expected fin. */
  ghost predicate FlushInv(s: State) {
    && Shape(s) && s.max > 0
    && ViewInv(ViewOf(s))
    && (forall i :: 0 <= i < |s.bps| ==> Health(s.bps[i], s.max))
    && BrokenIfReturned(s)
    && (forall m :: m in s.retryQ ==> Retries(m) > 0)
    && s.leakedFins == 0
  }

  ghost predicate Inv(s: State) {
    FlushInv(s) && (s.hwm == 0 || s.expectChaser[s.hwm])
  }
}
