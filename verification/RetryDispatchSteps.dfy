/** The moves of the partition producer on the view, and what each keeps. */
module RetryDispatchSteps {
  import opened RetryModel
  import opened RetryInvariant

  // ------------------------------------------------- moves that change only q and a buffer

  /** `w` differs from `v` in the arrivals and the buffers; no arrival is new except at level 0, and
      the fins among them are the same. */
  ghost predicate SameVisits(v: View, w: View) {
    && w == v.(q := w.q, buf := w.buf, submitted := w.submitted)
    && (forall x :: x in w.q ==> x in v.q || (x.Data? && x.retries == 0))
    && (forall f: nat :: Fin(f) in v.q ==> Fin(f) in w.q)
  }

  lemma SameVisitsKeeps(v: View, w: View)
    requires WellShaped(v) && WellShaped(w) && Visits(v) && SameVisits(v, w)
    ensures Visits(w)
  {
  }

  lemma SameFinsKeeps(v: View, w: View)
    requires WellShaped(v) && WellShaped(w) && Fins(v) && SameVisits(v, w)
    requires FinLast(w.q, w.ch) && FinsDistinct(w.q)
    ensures Fins(w)
  {
  }

  lemma SortedSub(v: View, w: View)
    requires Sorted(v) && w.acked == v.acked && w.submitted == v.submitted
    requires forall x :: Lives(w, x) ==> Lives(v, x)
    ensures Sorted(w)
  {
  }

  // ----------------------------------------------------------------- a new submission

  ghost function InsertQ(v: View, p: nat): View
    requires p <= |v.q|
  {
    v.(q := v.q[..p] + [Data(v.submitted, 0)] + v.q[p..], submitted := v.submitted + 1)
  }

  lemma InsertQMembers(v: View, p: nat)
    requires p <= |v.q|
    ensures forall x :: x in InsertQ(v, p).q <==> x in v.q || x == Data(v.submitted, 0)
    ensures forall x :: Lives(InsertQ(v, p), x) ==> Lives(v, x) || x == Data(v.submitted, 0)
  {
    assert v.q == v.q[..p] + v.q[p..];
  }

  lemma InsertQSeq(v: View, p: nat)
    requires Sorted(v) && Fifo(v.q)
    requires p <= |v.q| && forall k :: p <= k < |v.q| ==> Retries(v.q[k]) > 0
    ensures Fifo(InsertQ(v, p).q)
  {
    forall k | 0 <= k < |v.q| && v.q[k].Data? ensures v.q[k].id < v.submitted { assert Lives(v, v.q[k]); }
    hide Sorted;
    FifoInsert(v.q, p, v.submitted);
  }

  /** A message newer than all others, of level 0 and behind all of that level. */
  lemma FifoInsert(q: seq<Msg>, p: nat, id: nat)
    requires Fifo(q) && p <= |q| && (forall k :: 0 <= k < |q| && q[k].Data? ==> q[k].id < id) && forall k :: p <= k < |q| ==> Retries(q[k]) > 0
    ensures Fifo(q[..p] + [Data(id, 0)] + q[p..])
  {
    var r := q[..p] + [Data(id, 0)] + q[p..];
    assert forall k :: p < k < |r| ==> r[k] == q[k - 1] && Retries(r[k]) > 0;
    forall j, k | 0 <= j < k < |r| && r[j].Data? && r[k].Data? && r[j].retries == r[k].retries ensures r[j].id < r[k].id {
      if j != p && k != p {
        var j', k' := if j < p then j else j - 1, if k < p then k else k - 1;
        assert r[j] == q[j'] && r[k] == q[k'];
      } else if j != p {
        assert r[j] == q[j];
      }
    }
  }

  lemma InsertQFinSeq(v: View, p: nat)
    requires FinLast(v.q, v.ch) && FinsDistinct(v.q) && p <= |v.q|
    ensures var q := InsertQ(v, p).q; FinLast(q, v.ch) && FinsDistinct(q)
  {
    var q := InsertQ(v, p).q;
    assert forall k :: 0 <= k < |q| ==> q[k] == if k < p then v.q[k] else if k == p then Data(v.submitted, 0) else v.q[k - 1];
  }

  lemma InsertQFalls(v: View, p: nat)
    requires WellShaped(v) && Falls(v) && p <= |v.q|
    ensures Falls(InsertQ(v, p))
  {
    var q := InsertQ(v, p).q;
    assert forall k :: 0 <= k < |q| ==> q[k] == if k < p then v.q[k] else if k == p then Data(v.submitted, 0) else v.q[k - 1];
    InsertQMembers(v, p);
  }

  lemma InsertQSorted(v: View, p: nat)
    requires WellShaped(v) && Levels(v) && Sorted(v) && p <= |v.q|
    ensures Sorted(InsertQ(v, p)) && Levels(InsertQ(v, p))
  {
    InsertQMembers(v, p);
  }

  lemma InsertQLines(v: View, p: nat)
    requires WellShaped(v) && Levels(v) && Sorted(v) && Lines(v)
    requires p <= |v.q| && Fifo(InsertQ(v, p).q)
    ensures Lines(InsertQ(v, p))
  {
    var w := InsertQ(v, p);
    InsertQMembers(v, p);
    forall i | 0 <= i < |w.us| ensures Fifo(w.us[i]) && Before(w.q, w.us[i]) {
      assert Fifo(v.us[i]) && Before(v.q, v.us[i]);
    }
    forall l | 0 <= l < |w.buf| ensures Fifo(w.buf[l]) && Before(w.buf[l], w.q) {
      assert Fifo(v.buf[l]) && Before(v.buf[l], v.q);
      assert forall x :: x in v.buf[l] ==> x.Data? && x.retries == l && Lives(v, x);
    }
  }

  /** The dispatcher accepts a message: it enters at level 0, in front of nothing of level 0. */
  lemma InsertQKeeps(v: View, p: nat)
    requires ViewInv(v)
    requires p <= |v.q| && forall k :: p <= k < |v.q| ==> Retries(v.q[k]) > 0
    ensures ViewInv(InsertQ(v, p))
  {
    var w := InsertQ(v, p);
    InsertQMembers(v, p);
    InsertQSeq(v, p);
    InsertQFinSeq(v, p);
    InsertQFalls(v, p);
    InsertQSorted(v, p);
    InsertQLines(v, p);
    SameVisitsKeeps(v, w);
    SameFinsKeeps(v, w);
  }

  // ---------------------------------------------------------------- taking the head

  ghost function DropQ(v: View): View
    requires v.q != []
  {
    v.(q := v.q[1..])
  }

  lemma DropQMembers(v: View)
    requires v.q != []
    ensures forall x :: x in DropQ(v).q ==> x in v.q
    ensures forall x :: x in v.q ==> x == v.q[0] || x in DropQ(v).q
    ensures forall x :: Lives(DropQ(v), x) ==> Lives(v, x)
  {
    assert v.q == [v.q[0]] + DropQ(v).q;
  }

  lemma DropQLines(v: View)
    requires WellShaped(v) && Lines(v) && Falls(v) && v.q != []
    ensures Lines(DropQ(v)) && Falls(DropQ(v))
  {
    var w := DropQ(v);
    DropQMembers(v);
    forall i | 0 <= i < |w.us| ensures Before(w.q, w.us[i]) {
      assert Before(v.q, v.us[i]);
    }
    forall l | 0 <= l < |w.buf| ensures Before(w.buf[l], w.q) {
      assert Before(v.buf[l], v.q);
    }
  }

  lemma DropQFins(v: View)
    requires WellShaped(v) && Visits(v) && Fins(v) && v.q != [] && v.q[0].Data?
    ensures Visits(DropQ(v)) && Fins(DropQ(v))
  {
    hide Visits, Fins;
    assert SameVisits(v, DropQ(v)) by { DropQMembers(v); }
    DropQFinSeq(v);
    SameVisitsKeeps(v, DropQ(v));
    SameFinsKeeps(v, DropQ(v));
  }

  lemma DropQFinSeq(v: View)
    requires WellShaped(v) && Fins(v) && v.q != []
    ensures FinLast(DropQ(v).q, v.ch) && FinsDistinct(DropQ(v).q)
  {
    hide FinExpected, FinAlone, FinPresent;
  }

  lemma DropQLevels(v: View)
    requires WellShaped(v) && Levels(v) && v.q != []
    ensures Levels(DropQ(v))
  {
    DropQMembers(v);
  }

  lemma DropQSorted(v: View)
    requires Sorted(v) && v.q != []
    ensures Sorted(DropQ(v))
  {
    DropQMembers(v);
    SortedSub(v, DropQ(v));
  }

  /** A data message at the head is returned to the user. */
  lemma DropQKeeps(v: View)
    requires ViewInv(v) && v.q != [] && v.q[0].Data?
    ensures ViewInv(DropQ(v))
  {
    hide Levels, Sorted, Lines, Falls, Visits, Fins;
    DropQSorted(v);
    DropQLines(v);
    DropQLevels(v);
    DropQFins(v);
  }

  ghost function BufferQ(v: View): View
    requires v.q != [] && v.q[0].Data? && v.q[0].retries < |v.buf|
  {
    var l := v.q[0].retries;
    v.(q := v.q[1..], buf := v.buf[l := v.buf[l] + [v.q[0]]])
  }

  lemma BufferQLine(v: View)
    requires WellShaped(v) && Levels(v) && Lines(v)
    requires v.q != [] && v.q[0].Data? && v.q[0].retries < |v.buf|
    ensures var w := BufferQ(v); var l := v.q[0].retries; Fifo(w.buf[l]) && Before(w.buf[l], w.q)
  {
    var w := BufferQ(v);
    var m := v.q[0];
    var l := m.retries;
    assert m in v.q;
    assert Fifo(v.buf[l]) && Before(v.buf[l], v.q);
    assert forall k :: 0 <= k < |v.buf[l]| ==> v.buf[l][k] in v.buf[l];
    assert Fifo(w.buf[l]);
    forall x, y | x in w.buf[l] && y in w.q && x.Data? && y.Data? && x.retries == y.retries ensures x.id < y.id {
      var k :| 0 <= k < |w.q| && w.q[k] == y;
      assert v.q[k + 1] == y && y in v.q;
    }
  }

  lemma BufferQLines(v: View)
    requires WellShaped(v) && Levels(v) && Lines(v) && Falls(v)
    requires v.q != [] && v.q[0].Data? && v.q[0].retries < |v.buf|
    ensures Lines(BufferQ(v))
  {
    var w := BufferQ(v);
    BufferQLine(v);
    DropQLines(v);
    assert v.q[0] in v.q;
    forall l, i | 0 <= l < |w.buf| && 0 <= i < |w.us| ensures Before(w.buf[l], w.us[i]) {
      assert Before(v.buf[l], v.us[i]) && Before(v.q, v.us[i]);
    }
    assert forall l :: 0 <= l < |w.buf| && l != v.q[0].retries ==> w.buf[l] == DropQ(v).buf[l];
  }

  lemma BufferQSorted(v: View)
    requires WellShaped(v) && Levels(v) && Sorted(v)
    requires v.q != [] && v.q[0].Data? && v.q[0].retries < v.hwm
    ensures Sorted(BufferQ(v))
  {
    var w := BufferQ(v);
    forall x | Lives(w, x) ensures Lives(v, x) {
      DropQMembers(v);
    }
    SortedSub(v, w);
  }

  lemma BufferQLevels(v: View)
    requires WellShaped(v) && Levels(v) && Visits(v)
    requires v.q != [] && v.q[0].Data? && v.q[0].retries < v.hwm
    ensures Levels(BufferQ(v)) && Visits(BufferQ(v))
  {
    DropQMembers(v);
    SameVisitsKeeps(v, BufferQ(v));
  }

  lemma BufferQFins(v: View)
    requires WellShaped(v) && Fins(v)
    requires v.q != [] && v.q[0].Data? && v.q[0].retries < |v.buf|
    ensures Fins(BufferQ(v))
  {
    DropQMembers(v);
    SameFinsKeeps(v, BufferQ(v));
  }

  /** A message below the current level waits in its buffer. */
  lemma BufferQKeeps(v: View)
    requires ViewInv(v)
    requires v.q != [] && v.q[0].Data? && v.q[0].retries < v.hwm
    ensures ViewInv(BufferQ(v))
  {
    BufferQLines(v);
    DropQLines(v);
    BufferQSorted(v);
    BufferQLevels(v);
    BufferQFins(v);
  }

  // ----------------------------------------------------------------- a fin comes back

  ghost function FinQ(v: View): View
    requires v.q != [] && v.q[0].Fin? && v.q[0].retries < |v.ch|
  {
    v.(q := v.q[1..], ch := v.ch[v.q[0].retries := false])
  }

  /** Dropping an expectation leaves the owner of every other visit alone. */
  lemma {:induction false} OwnerWithout(ch: seq<bool>, f: nat, l: nat)
    requires f < |ch| && l <= |ch| && Owner(ch, l) != f
    ensures Owner(ch[f := false], l) == Owner(ch, l)
    decreases |ch| - l
  {
    if l < |ch| && !ch[l] { OwnerWithout(ch, f, l + 1); }
  }

  lemma FinQVisits(v: View, x: Msg, g: nat)
    requires WellShaped(v) && FinOrder(v) && FinAlone(v)
    requires v.q != [] && v.q[0].Fin? && v.q[0].retries < |v.ch|
    requires x in FinQ(v).q || InBrokers(v.us, x)
    ensures OfVisit(x, FinQ(v).ch, g) <==> OfVisit(x, v.ch, g)
    ensures !OfVisit(x, v.ch, v.q[0].retries)
  {
    var f := v.q[0].retries;
    assert v.q[0] == Fin(f) && Fin(f) in v.q;
    assert !OfVisit(x, v.ch, f) by {
      assert forall k :: 0 < k < |v.q| ==> v.q[k] == FinQ(v).q[k - 1];
    }
    if x.Data? && 0 < x.retries <= |v.ch| { OwnerWithout(v.ch, f, x.retries); }
  }

  lemma FinQSeq(v: View, q: seq<Msg>)
    requires WellShaped(v) && FinOrder(v) && FinAlone(v)
    requires v.q != [] && v.q[0].Fin? && v.q[0].retries < |v.ch|
    requires forall x :: x in q ==> x in FinQ(v).q || InBrokers(v.us, x)
    ensures FinLast(q, v.ch) ==> FinLast(q, FinQ(v).ch)
    ensures MarkersFirst(q, v.ch) ==> MarkersFirst(q, FinQ(v).ch)
  {
    forall k, g: nat | 0 <= k < |q| ensures OfVisit(q[k], FinQ(v).ch, g) <==> OfVisit(q[k], v.ch, g) {
      assert q[k] in q;
      FinQVisits(v, q[k], g);
    }
  }

  lemma FinQOrder(v: View)
    requires WellShaped(v) && FinOrder(v) && FinAlone(v)
    requires v.q != [] && v.q[0].Fin? && v.q[0].retries < |v.ch|
    ensures FinOrder(FinQ(v))
    ensures v.q[0] !in FinQ(v).q
  {
    var w := FinQ(v);
    assert forall k :: 0 <= k < |w.q| ==> w.q[k] == v.q[k + 1];
    FinQSeq(v, w.q);
    forall i | 0 <= i < |w.us| ensures FinLast(w.us[i], w.ch) && MarkersFirst(w.us[i], w.ch) && OneFin(w.us[i]) {
      FinQSeq(v, v.us[i]);
    }
  }

  lemma FinQFins(v: View)
    requires WellShaped(v) && Fins(v)
    requires v.q != [] && v.q[0].Fin? && v.q[0].retries < |v.ch|
    ensures Fins(FinQ(v))
  {
    var w := FinQ(v);
    var f := v.q[0].retries;
    assert v.q[0] == Fin(f) && Fin(f) in v.q;
    DropQMembers(v);
    FinQOrder(v);
    assert FinAlone(w) by {
      forall i, g: nat, x | 0 <= i < |w.us| && Fin(g) in w.q && x in w.us[i] ensures !OfVisit(x, w.ch, g) {
        FinQVisits(v, x, g);
      }
    }
  }

  lemma FinQVisitsKept(v: View)
    requires WellShaped(v) && FinOrder(v) && FinAlone(v) && Visits(v)
    requires v.q != [] && v.q[0].Fin? && v.q[0].retries < |v.ch|
    ensures Visits(FinQ(v))
  {
    var w := FinQ(v);
    DropQMembers(v);
    forall x, g: nat | x in w.q || InBrokers(v.us, x) ensures OfVisit(x, w.ch, g) <==> OfVisit(x, v.ch, g) {
      FinQVisits(v, x, g);
    }
    assert forall i, x :: 0 <= i < |v.us| && x in v.us[i] ==> InBrokers(v.us, x);
  }

  lemma FinQRest(v: View)
    requires WellShaped(v) && Levels(v) && Sorted(v) && Lines(v) && Falls(v)
    requires v.q != [] && v.q[0].Fin? && v.q[0].retries < |v.ch|
    ensures var w := FinQ(v); Levels(w) && Sorted(w) && Lines(w) && Falls(w)
  {
    DropQMembers(v);
    DropQLines(v);
    DropQSorted(v);
    SortedSub(DropQ(v), FinQ(v));
  }

  /** A fin comes back: its level no longer expects it and nothing of its visit is left. */
  lemma FinQKeeps(v: View)
    requires ViewInv(v)
    requires v.q != [] && v.q[0].Fin? && v.q[0].retries < |v.ch|
    ensures ViewInv(FinQ(v))
  {
    FinQRest(v);
    FinQFins(v);
    FinQVisitsKept(v);
  }

  // ---------------------------------------------------------- selecting a broker producer

  ghost function OpenQ(v: View, i: nat): View {
    if i < |v.us| then v.(us := v.us[i := v.us[i] + [Syn]], cur := Some(i))
    else v.(us := v.us + [[Syn]], cur := Some(|v.us|))
  }

  lemma OpenQSorted(v: View, i: nat)
    requires WellShaped(v) && Levels(v) && Sorted(v)
    ensures Levels(OpenQ(v, i)) && Sorted(OpenQ(v, i))
  {
    var w := OpenQ(v, i);
    assert forall j, x :: 0 <= j < |w.us| && x in w.us[j] ==> x == Syn || (j < |v.us| && x in v.us[j]);
    SortedSub(v, w);
  }

  lemma OpenQLines(v: View, i: nat)
    requires Lines(v)
    ensures Lines(OpenQ(v, i))
  {
    hide Fifo, Before;
    var w := OpenQ(v, i);
    SynLine(v.q);
    forall j | 0 <= j < |w.us| ensures Fifo(w.us[j]) && Before(w.q, w.us[j]) {
      if j < |v.us| { MarkerLine(v.q, v.us[j], Syn); }
    }
    forall l, j | 0 <= l < |w.buf| && 0 <= j < |w.us| ensures Before(w.buf[l], w.us[j]) {
      SynLine(v.buf[l]);
      if j < |v.us| { MarkerLine(v.buf[l], v.us[j], Syn); }
    }
  }

  lemma SynLine(q: seq<Msg>)
    ensures Fifo([Syn]) && Before(q, [Syn])
  {
  }

  /** With no broker producer selected, no message is above hwm. */
  lemma NoOpenVisit(v: View)
    requires ViewInv(v) && v.cur.None?
    ensures forall x :: x in v.q ==> !OfVisit(x, v.ch, |v.ch|)
    ensures forall i, x :: 0 <= i < |v.us| && x in v.us[i] ==> !OfVisit(x, v.ch, |v.ch|)
    ensures forall x :: x in v.q && x.Data? ==> x.retries <= v.hwm
    ensures forall i, x :: 0 <= i < |v.us| && x in v.us[i] && x.Data? ==> x.retries <= v.hwm
  {
    forall x: Msg | x.Data? && v.hwm < x.retries <= |v.ch| ensures OfVisit(x, v.ch, |v.ch|) {
    }
  }

  lemma OpenQFalls(v: View, i: nat)
    requires WellShaped(v) && Falls(v)
    requires forall j, x :: 0 <= j < |v.us| && x in v.us[j] && x.Data? ==> x.retries <= v.hwm
    ensures WellShaped(OpenQ(v, i)) && Falls(OpenQ(v, i))
  {
    var w := OpenQ(v, i);
    assert forall j, x :: 0 <= j < |w.us| && x in w.us[j] && x.Data? ==> x.retries <= v.hwm;
    assert forall j, k :: 0 <= j < |w.us| && 0 <= k < |w.us[j]| ==> w.us[j][k] in w.us[j];
  }

  lemma OpenQVisits(v: View, i: nat)
    requires WellShaped(v) && Visits(v)
    requires forall x :: x in v.q ==> !OfVisit(x, v.ch, |v.ch|)
    requires forall j, x :: 0 <= j < |v.us| && x in v.us[j] ==> !OfVisit(x, v.ch, |v.ch|)
    ensures WellShaped(OpenQ(v, i)) && Visits(OpenQ(v, i))
  {
    var w := OpenQ(v, i);
    assert forall j, x :: 0 <= j < |w.us| && x in w.us[j] ==> x == Syn || (j < |v.us| && x in v.us[j]);
  }

  lemma OpenQFinOrder(v: View, i: nat)
    requires FinOrder(v)
    requires forall j, x :: 0 <= j < |v.us| && x in v.us[j] ==> !OfVisit(x, v.ch, |v.ch|)
    ensures FinOrder(OpenQ(v, i))
  {
    var w := OpenQ(v, i);
    forall j | 0 <= j < |w.us| ensures FinLast(w.us[j], w.ch) && MarkersFirst(w.us[j], w.ch) && OneFin(w.us[j]) {
      if j < |v.us| {
        assert FinLast(v.us[j], v.ch) && MarkersFirst(v.us[j], v.ch) && OneFin(v.us[j]);
        assert forall k :: 0 <= k < |v.us[j]| ==> v.us[j][k] in v.us[j];
      }
    }
  }

  lemma OpenQFins(v: View, i: nat)
    requires WellShaped(v) && Fins(v)
    ensures WellShaped(OpenQ(v, i)) && FinExpected(OpenQ(v, i)) && FinAlone(OpenQ(v, i)) && FinPresent(OpenQ(v, i))
  {
    var w := OpenQ(v, i);
    assert forall j, x :: 0 <= j < |w.us| && x in w.us[j] ==> x == Syn || (j < |v.us| && x in v.us[j]);
    assert forall j, x :: 0 <= j < |v.us| && x in v.us[j] ==> x in w.us[j];
  }

  /** A broker producer is selected and sent a syn. */
  lemma OpenQKeeps(v: View, i: nat)
    requires ViewInv(v) && v.cur.None?
    ensures ViewInv(OpenQ(v, i))
  {
    NoOpenVisit(v);
    OpenQSorted(v, i);
    OpenQLines(v, i);
    OpenQFalls(v, i);
    OpenQVisits(v, i);
    OpenQFinOrder(v, i);
    OpenQFins(v, i);
  }

  // ------------------------------------------------------------- sending to the leader

  ghost function AppendU(v: View, ms: seq<Msg>): View
    requires v.cur.Some? && v.cur.value < |v.us|
  {
    v.(us := v.us[v.cur.value := v.us[v.cur.value] + ms])
  }

  /** `ms` are messages about to join the open visit, one level above hwm: they lie exactly between
      the live messages above hwm and the others. */
  ghost predicate Joins(v: View, ms: seq<Msg>) {
    && v.cur.Some?
    && (forall x :: x in ms ==> x.Data? && x.retries == v.hwm + 1 && x.id < v.submitted)
    && Fifo(ms)
    && (forall x, y :: x in ms && Lives(v, y) ==> if y.retries > v.hwm then y.id < x.id else x.id < y.id)
    && (forall x, k :: x in ms && 0 <= k < |v.acked| ==> v.acked[k] < x.id)
  }

  lemma AppendUMembers(v: View, ms: seq<Msg>)
    requires v.cur.Some? && v.cur.value < |v.us|
    ensures var w := AppendU(v, ms); forall j, x :: 0 <= j < |w.us| && x in w.us[j] ==> x in v.us[j] || (j == v.cur.value && x in ms)
    ensures var w := AppendU(v, ms); forall j, x :: 0 <= j < |w.us| && x in v.us[j] ==> x in w.us[j]
    ensures forall x :: Lives(AppendU(v, ms), x) ==> Lives(v, x) || x in ms
  {
  }

  lemma AppendUSorted(v: View, ms: seq<Msg>)
    requires WellShaped(v) && Sorted(v) && Joins(v, ms)
    ensures Sorted(AppendU(v, ms))
  {
    AppendUMembers(v, ms);
  }

  lemma AppendULevels(v: View, ms: seq<Msg>)
    requires WellShaped(v) && Levels(v) && Joins(v, ms)
    ensures Levels(AppendU(v, ms))
  {
    hide Lives, Fifo;
    AppendUMembers(v, ms);
  }

  lemma JoinsOpenVisit(v: View, ms: seq<Msg>)
    requires WellShaped(v) && Levels(v) && Joins(v, ms)
    ensures forall x :: x in ms ==> OfVisit(x, v.ch, |v.ch|) && x.Data?
  {
    hide Lives, Fifo;
  }

  lemma AppendUVisits(v: View, ms: seq<Msg>)
    requires WellShaped(v) && Levels(v) && Visits(v) && Joins(v, ms)
    ensures Visits(AppendU(v, ms))
  {
    JoinsOpenVisit(v, ms);
    AppendUMembers(v, ms);
    hide Lives, Fifo, Levels;
  }

  lemma AppendULines(v: View, ms: seq<Msg>)
    requires WellShaped(v) && Lines(v) && Joins(v, ms)
    requires forall l, m :: 0 <= l <= v.max && m in v.buf[l] ==> m.Data? && m.retries == l
    ensures Lines(AppendU(v, ms))
  {
    var w := AppendU(v, ms);
    var c := v.cur.value;
    forall j | 0 <= j < |w.us| ensures Fifo(w.us[j]) && Before(w.q, w.us[j]) {
      assert Fifo(v.us[j]) && Before(v.q, v.us[j]);
      if j == c { AppendULine(v, ms); }
    }
    forall l, j | 0 <= l < |w.buf| && 0 <= j < |w.us| ensures Before(w.buf[l], w.us[j]) {
      assert Before(v.buf[l], v.us[j]);
      assert forall x :: x in v.buf[l] ==> Lives(v, x);
    }
  }

  lemma AppendULine(v: View, ms: seq<Msg>)
    requires WellShaped(v) && Joins(v, ms)
    requires Fifo(v.us[v.cur.value]) && Before(v.q, v.us[v.cur.value])
    ensures Fifo(v.us[v.cur.value] + ms) && Before(v.q, v.us[v.cur.value] + ms)
  {
    var u := v.us[v.cur.value];
    forall x | x in u && x.Data? ensures Lives(v, x) {
      assert InBrokers(v.us, x);
    }
    assert forall x :: x in v.q && x.Data? ==> Lives(v, x);
    assert forall k :: 0 <= k < |u| ==> u[k] in u;
    assert forall k :: 0 <= k < |ms| ==> ms[k] in ms;
    forall j, k | 0 <= j < k < |u + ms| && (u + ms)[j].Data? && (u + ms)[k].Data? && (u + ms)[j].retries == (u + ms)[k].retries
      ensures (u + ms)[j].id < (u + ms)[k].id
    {
      if k >= |u| { assert (u + ms)[k] == ms[k - |u|]; }
      if j >= |u| { assert (u + ms)[j] == ms[j - |u|]; }
    }
  }

  lemma AppendUFalls(v: View, ms: seq<Msg>)
    requires WellShaped(v) && Falls(v) && Joins(v, ms)
    ensures Falls(AppendU(v, ms))
  {
    var u := v.us[v.cur.value];
    assert forall k :: 0 <= k < |u| ==> u[k] in u;
    assert forall k :: 0 <= k < |ms| ==> ms[k] in ms;
  }

  lemma AppendUFinOrder(v: View, ms: seq<Msg>)
    requires WellShaped(v) && Levels(v) && FinOrder(v) && FinExpected(v) && Joins(v, ms)
    ensures FinOrder(AppendU(v, ms))
  {
    var w := AppendU(v, ms);
    var c := v.cur.value;
    var u := v.us[c];
    JoinsOpenVisit(v, ms);
    assert forall k :: 0 <= k < |ms| ==> ms[k] in ms;
    assert FinLast(u, v.ch) && MarkersFirst(u, v.ch) && OneFin(u);
    forall j, k | 0 <= j < k < |w.us[c]| && w.us[c][j].Fin? ensures !OfVisit(w.us[c][k], w.ch, w.us[c][j].retries) {
      assert w.us[c][j] == u[j] && Fin(u[j].retries) in u;
    }
    assert FinLast(w.us[c], w.ch);
    assert MarkersFirst(w.us[c], w.ch) && OneFin(w.us[c]);
  }

  lemma AppendUFins(v: View, ms: seq<Msg>)
    requires WellShaped(v) && Levels(v) && Fins(v) && Joins(v, ms)
    ensures var w := AppendU(v, ms); FinExpected(w) && FinAlone(w) && FinPresent(w)
  {
    AppendUMembers(v, ms);
    JoinsOpenVisit(v, ms);
  }

  lemma AppendUKeeps(v: View, ms: seq<Msg>)
    requires ViewInv(v) && Joins(v, ms)
    ensures ViewInv(AppendU(v, ms))
  {
    AppendUSorted(v, ms);
    AppendULevels(v, ms);
    AppendUVisits(v, ms);
    AppendULines(v, ms);
    AppendUFalls(v, ms);
    AppendUFinOrder(v, ms);
    AppendUFins(v, ms);
  }

  /** The message at the head has the current level and goes to the leader. */
  lemma SendQKeeps(v: View)
    requires ViewInv(v) && v.cur.Some?
    requires v.q != [] && v.q[0].Data? && v.q[0].retries == v.hwm
    ensures ViewInv(AppendU(DropQ(v), [Bump(v.q[0])]))
  {
    DropQKeeps(v);
    HeadJoins(v);
    AppendUKeeps(DropQ(v), [Bump(v.q[0])]);
  }

  lemma HeadJoins(v: View)
    requires WellShaped(v) && Levels(v) && Sorted(v) && Lines(v) && v.cur.Some?
    requires v.q != [] && v.q[0].Data? && v.q[0].retries == v.hwm
    ensures Joins(DropQ(v), [Bump(v.q[0])])
  {
    var m := v.q[0];
    var w := DropQ(v);
    assert m in v.q && Lives(v, m);
    forall y | Lives(w, y) ensures if y.retries > v.hwm then y.id < m.id else m.id < y.id {
      DropQMembers(v);
      assert Lives(v, y);
      if y.retries == v.hwm {
        assert v.buf[v.hwm] == [];
        if y in w.q {
          var k :| 0 <= k < |w.q| && w.q[k] == y;
          assert v.q[k + 1] == y;
        } else {
          var i :| 0 <= i < |v.us| && y in v.us[i];
          assert Before(v.q, v.us[i]);
        }
      }
    }
  }

  // ------------------------------------------------------------------ flushing a level

  ghost function EmptyLevel(v: View): View
    requires 0 < v.hwm <= |v.buf|
  {
    v.(hwm := v.hwm - 1, buf := v.buf[v.hwm - 1 := []])
  }

  /** No message on its way has the level of hwm when that level expects no fin. */
  lemma NothingAtTop(v: View)
    requires ViewInv(v) && 0 < v.hwm && !v.ch[v.hwm]
    ensures forall x :: x in v.q && x.Data? ==> x.retries != v.hwm
    ensures forall i, x :: 0 <= i < |v.us| && x in v.us[i] && x.Data? ==> x.retries != v.hwm
  {
    assert forall x: Msg :: x.Data? && x.retries == v.hwm ==> OfVisit(x, v.ch, |v.ch|);
  }

  lemma EmptyLevelSorted(v: View)
    requires WellShaped(v) && Sorted(v) && 0 < v.hwm
    ensures Sorted(EmptyLevel(v))
  {
    SortedSub(v, EmptyLevel(v));
  }

  lemma EmptyLevelLines(v: View)
    requires WellShaped(v) && Lines(v) && 0 < v.hwm
    ensures Lines(EmptyLevel(v))
  {
    var w := EmptyLevel(v);
    forall l, j | 0 <= l < |w.buf| && 0 <= j < |w.us| ensures Before(w.buf[l], w.us[j]) {
      assert Before(v.buf[l], v.us[j]);
    }
    forall l | 0 <= l < |w.buf| ensures Fifo(w.buf[l]) && Before(w.buf[l], w.q) {
      assert Fifo(v.buf[l]) && Before(v.buf[l], v.q);
    }
  }

  lemma EmptyLevelFalls(v: View)
    requires WellShaped(v) && Falls(v) && 0 < v.hwm
    requires forall x :: x in v.q && x.Data? ==> x.retries != v.hwm
    requires forall i, x :: 0 <= i < |v.us| && x in v.us[i] && x.Data? ==> x.retries != v.hwm
    ensures Falls(EmptyLevel(v))
  {
    assert forall k :: 0 <= k < |v.q| ==> v.q[k] in v.q;
    assert forall i, k :: 0 <= i < |v.us| && 0 <= k < |v.us[i]| ==> v.us[i][k] in v.us[i];
  }

  lemma EmptyLevelVisits(v: View)
    requires WellShaped(v) && Levels(v) && Visits(v) && 0 < v.hwm && !v.ch[v.hwm]
    ensures Levels(EmptyLevel(v)) && Visits(EmptyLevel(v))
  {
  }

  lemma EmptyLevelFins(v: View)
    requires WellShaped(v) && Fins(v) && 0 < v.hwm
    ensures Fins(EmptyLevel(v))
  {
    hide FinLast, MarkersFirst, OneFin, FinsDistinct, OfVisit;
  }

  /** hwm drops one level; that level's buffer is emptied. */
  lemma EmptyLevelKeeps(v: View)
    requires ViewInv(v) && 0 < v.hwm && !v.ch[v.hwm]
    ensures ViewInv(EmptyLevel(v))
  {
    NothingAtTop(v);
    EmptyLevelSorted(v);
    EmptyLevelLines(v);
    EmptyLevelFalls(v);
    EmptyLevelVisits(v);
    EmptyLevelFins(v);
  }

  lemma LevelMember(v: View, k: nat, x: Msg)
    requires WellShaped(v) && Levels(v) && k <= v.max && x in Bumped(v.buf[k])
    ensures x.Data? && x.retries == k + 1 && Data(x.id, k) in v.buf[k] && Lives(v, Data(x.id, k))
  {
    BumpedMember(v.buf[k], x);
  }

  lemma LevelMemberOrder(v: View, x: Msg, y: Msg)
    requires WellShaped(v) && Levels(v) && Sorted(v) && Lines(v) && 0 < v.hwm
    requires x in Bumped(v.buf[v.hwm - 1]) && Lives(EmptyLevel(v), y)
    ensures if y.retries > v.hwm - 1 then y.id < x.id else x.id < y.id
  {
    var k := v.hwm - 1;
    LevelMember(v, k, x);
    assert Lives(v, y);
    if y.retries == k { BufferFirst(v, k, x.id, y); }
  }

  lemma LevelFifo(q: seq<Msg>)
    requires Fifo(q)
    ensures Fifo(Bumped(q))
  {
  }

  lemma LevelJoins(v: View)
    requires WellShaped(v) && Levels(v) && Sorted(v) && Lines(v) && 0 < v.hwm && v.cur.Some?
    ensures Joins(EmptyLevel(v), Bumped(v.buf[v.hwm - 1]))
  {
    var ms := Bumped(v.buf[v.hwm - 1]);
    LevelFifo(v.buf[v.hwm - 1]);
    forall x | x in ms ensures x.Data? && x.retries == v.hwm && Lives(v, Data(x.id, v.hwm - 1)) {
      LevelMember(v, v.hwm - 1, x);
    }
    forall x, y | x in ms && Lives(EmptyLevel(v), y) ensures if y.retries > v.hwm - 1 then y.id < x.id else x.id < y.id {
      LevelMemberOrder(v, x, y);
    }
  }

  lemma BumpedMember(q: seq<Msg>, x: Msg)
    requires x in Bumped(q)
    ensures exists y :: y in q && x == Bump(y)
  {
    var j :| 0 <= j < |q| && Bumped(q)[j] == x;
    assert q[j] in q;
  }

  lemma BufferFirst(v: View, k: nat, id: nat, y: Msg)
    requires Lines(v) && k < |v.buf| && Data(id, k) in v.buf[k]
    requires y.Data? && y.retries == k && (y in v.q || InBrokers(v.us, y))
    ensures id < y.id
  {
    assert Before(v.buf[k], v.q);
    if y !in v.q {
      var i :| 0 <= i < |v.us| && y in v.us[i];
      assert Before(v.buf[k], v.us[i]);
    }
  }

  /** A buffered level is flushed to the leader. */
  lemma FlushLevelKeeps(v: View)
    requires ViewInv(v) && 0 < v.hwm && !v.ch[v.hwm] && v.cur.Some?
    ensures ViewInv(AppendU(EmptyLevel(v), Bumped(v.buf[v.hwm - 1])))
  {
    EmptyLevelKeeps(v);
    LevelJoins(v);
    AppendUKeeps(EmptyLevel(v), Bumped(v.buf[v.hwm - 1]));
  }

  // --------------------------------------------------------------- a new retry level

  ghost function RaiseQ(v: View): View
    requires WellShaped(v) && v.cur.Some? && v.q != [] && v.q[0].Data? && v.q[0].retries <= v.max
  {
    var l := v.q[0].retries;
    var c := v.cur.value;
    v.(us := v.us[c := v.us[c] + [Fin(l)]], ch := v.ch[l := true], via := v.via[l := c], hwm := l, cur := None)
  }

  ghost predicate Raises(v: View) {
    && WellShaped(v) && Levels(v) && v.cur.Some? && v.q != [] && v.q[0].Data? && v.hwm < v.q[0].retries <= v.max
    && AllData(v.us[v.cur.value])
  }

  lemma {:induction false} OwnerWith(ch: seq<bool>, l: nat, k: nat)
    requires k <= l < |ch| && forall j :: l <= j < |ch| ==> !ch[j]
    ensures Owner(ch[l := true], k) == if Owner(ch, k) == |ch| then l else Owner(ch, k)
    decreases l - k
  {
    if k < l { OwnerWith(ch, l, k + 1); }
    else { NoOwner(ch, k); }
  }

  lemma {:induction false} NoOwner(ch: seq<bool>, k: nat)
    requires k <= |ch| && forall j :: k <= j < |ch| ==> !ch[j]
    ensures Owner(ch, k) == |ch|
    decreases |ch| - k
  {
    if k < |ch| { NoOwner(ch, k + 1); }
  }

  /** The first message above hwm to arrive is of the highest level there is. */
  lemma HeadIsHighest(v: View, x: Msg)
    requires Raises(v) && Falls(v) && Visits(v)
    requires x.Data? && (x in v.q || InBrokers(v.us, x))
    ensures x.retries <= v.q[0].retries
  {
    if x.retries > v.hwm {
      NoOwner(v.ch, x.retries);
      assert OfVisit(x, v.ch, |v.ch|);
      if x in v.q {
        var k :| 0 <= k < |v.q| && v.q[k] == x;
      } else {
        var i :| 0 <= i < |v.us| && x in v.us[i];
        assert v.cur == Some(i);
        assert v.q[0] in v.q;
      }
    }
  }

  lemma RaiseVisit(v: View, x: Msg, g: nat)
    requires Raises(v) && Falls(v) && Visits(v)
    requires x in v.q || InBrokers(v.us, x)
    ensures g < |v.ch| && g != v.q[0].retries ==> (OfVisit(x, RaiseQ(v).ch, g) <==> OfVisit(x, v.ch, g))
    ensures OfVisit(x, RaiseQ(v).ch, v.q[0].retries) <==> OfVisit(x, v.ch, |v.ch|)
    ensures !OfVisit(x, RaiseQ(v).ch, |v.ch|)
    ensures !OfVisit(x, v.ch, v.q[0].retries)
  {
    if x.Data? && 0 < x.retries <= |v.ch| {
      HeadIsHighest(v, x);
      OwnerWith(v.ch, v.q[0].retries, x.retries);
    }
  }

  lemma RaiseMembers(v: View)
    requires Raises(v)
    ensures var w := RaiseQ(v); forall j, x :: 0 <= j < |w.us| && x in w.us[j] ==>
              (x in v.us[j] && InBrokers(v.us, x)) || (x == Fin(v.q[0].retries) && j == v.cur.value)
    ensures var w := RaiseQ(v); forall j, x :: 0 <= j < |w.us| && x in v.us[j] ==> x in w.us[j]
    ensures forall x :: Lives(RaiseQ(v), x) ==> Lives(v, x)
  {
  }

  lemma RaiseSorted(v: View)
    requires Raises(v) && Sorted(v)
    ensures Sorted(RaiseQ(v))
  {
    RaiseMembers(v);
    SortedSub(v, RaiseQ(v));
  }

  /** A marker at the end changes nothing about the order of data. */
  lemma MarkerLine(q: seq<Msg>, u: seq<Msg>, m: Msg)
    requires !m.Data?
    ensures Fifo(u) ==> Fifo(u + [m])
    ensures Before(q, u) ==> Before(q, u + [m])
  {
  }

  lemma RaiseLines(v: View)
    requires Raises(v) && Lines(v)
    ensures Lines(RaiseQ(v))
  {
    hide Fifo, Before, Levels, AllData;
    var w := RaiseQ(v);
    var m := Fin(v.q[0].retries);
    forall j | 0 <= j < |w.us| ensures Fifo(w.us[j]) && Before(w.q, w.us[j]) {
      MarkerLine(v.q, v.us[j], m);
    }
    forall l, j | 0 <= l < |w.buf| && 0 <= j < |w.us| ensures Before(w.buf[l], w.us[j]) {
      MarkerLine(v.buf[l], v.us[j], m);
    }
  }

  lemma RaiseFalls(v: View)
    requires Raises(v) && Falls(v) && Visits(v)
    ensures Levels(RaiseQ(v)) && Falls(RaiseQ(v))
  {
    RaiseMembers(v);
    forall k | 0 <= k < |v.q| && v.q[k].Data? ensures v.q[k].retries <= v.q[0].retries {
      HeadIsHighest(v, v.q[k]);
    }
  }

  lemma RaiseVisits(v: View)
    requires Raises(v) && Falls(v) && Visits(v)
    ensures Visits(RaiseQ(v))
  {
    var w := RaiseQ(v);
    RaiseMembers(v);
    forall x, g: nat | x in v.q || InBrokers(v.us, x)
      ensures g < |v.ch| && g != v.q[0].retries ==> (OfVisit(x, w.ch, g) <==> OfVisit(x, v.ch, g))
      ensures OfVisit(x, w.ch, v.q[0].retries) <==> OfVisit(x, v.ch, |v.ch|)
      ensures !OfVisit(x, w.ch, |v.ch|)
    {
      RaiseVisit(v, x, g);
    }
  }

  lemma RaiseFinLast(v: View, q: seq<Msg>)
    requires Raises(v) && Falls(v) && Visits(v) && FinLast(q, v.ch)
    requires forall x :: x in q ==> x in v.q || InBrokers(v.us, x)
    requires forall f: nat :: Fin(f) in q ==> f <= v.max && v.ch[f]
    ensures FinLast(q, RaiseQ(v).ch)
    ensures MarkersFirst(q, RaiseQ(v).ch)
  {
    forall j, k | 0 <= j < k < |q| ensures q[j].Fin? ==> !OfVisit(q[k], RaiseQ(v).ch, q[j].retries) {
      assert q[j] in q && q[k] in q;
      if q[j].Fin? {
        assert Fin(q[j].retries) in q;
        RaiseVisit(v, q[k], q[j].retries);
      }
    }
    forall k | 0 <= k < |q| ensures !OfVisit(q[k], RaiseQ(v).ch, |v.ch|) {
      assert q[k] in q;
      RaiseVisit(v, q[k], 0);
    }
  }

  lemma RaiseFinOrder(v: View)
    requires Raises(v) && Falls(v) && Visits(v) && FinOrder(v) && FinExpected(v)
    ensures FinOrder(RaiseQ(v))
  {
    var w := RaiseQ(v);
    var c := v.cur.value;
    RaiseFinLast(v, v.q);
    forall j | 0 <= j < |w.us| ensures FinLast(w.us[j], w.ch) && MarkersFirst(w.us[j], w.ch) && OneFin(w.us[j]) {
      assert FinLast(v.us[j], v.ch) && OneFin(v.us[j]);
      RaiseFinLast(v, v.us[j]);
      if j == c {
        forall k | 0 <= k < |v.us[c]| ensures v.us[c][k].Data? && !OfVisit(v.us[c][k], w.ch, |w.ch|) {
          assert v.us[c][k] in v.us[c];
          RaiseVisit(v, v.us[c][k], 0);
        }
        assert !OfVisit(Fin(v.q[0].retries), w.ch, v.q[0].retries);
      }
    }
  }

  lemma RaiseFins(v: View)
    requires Raises(v) && Falls(v) && Visits(v) && FinExpected(v) && FinAlone(v) && FinPresent(v)
    ensures var w := RaiseQ(v); FinExpected(w) && FinAlone(w) && FinPresent(w)
  {
    var w := RaiseQ(v);
    RaiseMembers(v);
    forall i, f: nat, x | 0 <= i < |w.us| && Fin(f) in w.q && x in w.us[i] ensures !OfVisit(x, w.ch, f) {
      if x.Data? { RaiseVisit(v, x, f); }
    }
    assert Fin(v.q[0].retries) in w.us[v.cur.value];
  }

  /** A message of a new, higher level arrives: the broker producer it came from is sent a fin and
      is no longer selected. */
  lemma RaiseQKeeps(v: View)
    requires ViewInv(v) && Raises(v)
    ensures ViewInv(RaiseQ(v))
  {
    RaiseSorted(v);
    RaiseLines(v);
    RaiseFalls(v);
    RaiseVisits(v);
    RaiseFinOrder(v);
    RaiseFins(v);
  }
}
