/** The moves a message can make on the view, and what each keeps. */
module RetryViewSteps {
  import opened RetryModel
  import opened RetryInvariant

  // ------------------------------------------------------------- broker producer moves

  ghost function Cut(u: seq<Msg>, a: nat, b: nat): (r: seq<Msg>)
    requires a <= b <= |u|
    ensures |r| == |u| - (b - a)
    ensures forall k :: 0 <= k < |r| ==> r[k] == if k < a then u[k] else u[k + (b - a)]
    ensures forall x :: x in r ==> x in u
  {
    u[..a] + u[b..]
  }

  /** Messages a up to b of broker producer i leave it. */
  ghost function DropU(v: View, i: nat, a: nat, b: nat): View
    requires i < |v.us| && a <= b <= |v.us[i]|
  {
    v.(us := v.us[i := Cut(v.us[i], a, b)])
  }

  lemma DropUMembers(v: View, i: nat, a: nat, b: nat)
    requires i < |v.us| && a <= b <= |v.us[i]|
    ensures var w := DropU(v, i, a, b); forall j, x :: 0 <= j < |w.us| && x in w.us[j] ==> x in v.us[j]
    ensures forall x :: Lives(DropU(v, i, a, b), x) ==> Lives(v, x)
  {
  }

  lemma DropUSorted(v: View, i: nat, a: nat, b: nat)
    requires i < |v.us| && a <= b <= |v.us[i]| && Sorted(v)
    ensures Sorted(DropU(v, i, a, b))
  {
    DropUMembers(v, i, a, b);
  }

  lemma CutLine(q: seq<Msg>, u: seq<Msg>, a: nat, b: nat)
    requires a <= b <= |u|
    ensures Fifo(u) ==> Fifo(Cut(u, a, b))
    ensures Before(q, u) ==> Before(q, Cut(u, a, b))
  {
  }

  lemma DropULines(v: View, i: nat, a: nat, b: nat)
    requires i < |v.us| && a <= b <= |v.us[i]| && Lines(v)
    ensures Lines(DropU(v, i, a, b))
  {
    hide Fifo, Before;
    var w := DropU(v, i, a, b);
    CutLine(v.q, v.us[i], a, b);
    forall l, j | 0 <= l < |w.buf| && 0 <= j < |w.us| ensures Before(w.buf[l], w.us[j]) {
      CutLine(v.buf[l], v.us[i], a, b);
    }
  }

  lemma CutFalls(q: seq<Msg>, u: seq<Msg>, a: nat, b: nat, h: nat)
    requires a <= b <= |u|
    ensures Falling(u, h) ==> Falling(Cut(u, a, b), h)
    ensures Above(q, u, h) ==> Above(q, Cut(u, a, b), h)
  {
  }

  lemma DropUFalls(v: View, i: nat, a: nat, b: nat)
    requires WellShaped(v) && i < |v.us| && a <= b <= |v.us[i]| && Falls(v)
    ensures Falls(DropU(v, i, a, b))
  {
    hide Falling, Above;
    CutFalls(v.q, v.us[i], a, b, v.hwm);
  }

  lemma DropUVisits(v: View, i: nat, a: nat, b: nat)
    requires WellShaped(v) && i < |v.us| && a <= b <= |v.us[i]|
    requires Levels(v) && Visits(v)
    ensures Levels(DropU(v, i, a, b)) && Visits(DropU(v, i, a, b))
  {
    hide OfVisit;
    DropUMembers(v, i, a, b);
  }

  lemma CutFinOrder(u: seq<Msg>, ch: seq<bool>, a: nat, b: nat)
    requires a <= b <= |u|
    ensures FinLast(u, ch) ==> FinLast(Cut(u, a, b), ch)
    ensures MarkersFirst(u, ch) ==> MarkersFirst(Cut(u, a, b), ch)
    ensures OneFin(u) ==> OneFin(Cut(u, a, b))
  {
  }

  lemma CutKeepsFins(u: seq<Msg>, a: nat, b: nat, f: nat)
    requires a <= b <= |u| && Fin(f) in u
    requires forall k :: a <= k < b ==> !u[k].Fin?
    ensures Fin(f) in Cut(u, a, b)
  {
    var k :| 0 <= k < |u| && u[k] == Fin(f);
    assert Cut(u, a, b)[if k < a then k else k - (b - a)] == Fin(f);
  }

  lemma DropUFins(v: View, i: nat, a: nat, b: nat)
    requires WellShaped(v) && i < |v.us| && a <= b <= |v.us[i]|
    requires forall k :: a <= k < b ==> !v.us[i][k].Fin?
    requires Fins(v)
    ensures Fins(DropU(v, i, a, b))
  {
    hide FinLast, MarkersFirst, OneFin, FinsDistinct, OfVisit, Lives;
    DropUMembers(v, i, a, b);
    CutFinOrder(v.us[i], v.ch, a, b);
    forall f: nat | Fin(f) in v.us[i] ensures Fin(f) in DropU(v, i, a, b).us[i] {
      CutKeepsFins(v.us[i], a, b, f);
    }
  }

  /** Messages of a broker producer settle or a syn is consumed. */
  lemma DropUKeeps(v: View, i: nat, a: nat, b: nat)
    requires ViewInv(v)
    requires i < |v.us| && a <= b <= |v.us[i]|
    requires forall k :: a <= k < b ==> !v.us[i][k].Fin?
    ensures ViewInv(DropU(v, i, a, b))
  {
    hide Levels, Sorted, Lines, Falls, Visits, Fins;
    DropUSorted(v, i, a, b);
    DropULines(v, i, a, b);
    DropUFalls(v, i, a, b);
    DropUVisits(v, i, a, b);
    DropUFins(v, i, a, b);
  }

  ghost function ReturnU(v: View, i: nat): View
    requires i < |v.us| && v.us[i] != []
  {
    v.(us := v.us[i := v.us[i][1..]], q := v.q + [v.us[i][0]])
  }

  /** Two broker producers never hold messages of the same level. */
  lemma LevelsDisjoint(v: View, i: nat, j: nat, x: Msg, y: Msg)
    requires WellShaped(v) && Levels(v) && Visits(v)
    requires i < |v.us| && j < |v.us| && x in v.us[i] && y in v.us[j]
    requires x.Data? && y.Data? && x.retries == y.retries
    ensures i == j
  {
    var o := Owner(v.ch, x.retries);
    assert OfVisit(x, v.ch, o) && OfVisit(y, v.ch, o);
  }

  lemma ReturnUSorted(v: View, i: nat)
    requires i < |v.us| && v.us[i] != []
    requires Sorted(v)
    ensures Sorted(ReturnU(v, i))
  {
    var w := ReturnU(v, i);
    assert v.us[i][0] in v.us[i];
    assert forall x :: Lives(w, x) ==> Lives(v, x);
  }

  /** Its messages are in order with those still out. */
  lemma ReturnUBefore(v: View, i: nat, j: nat)
    requires WellShaped(v) && Levels(v) && Visits(v) && Lines(v) && i < |v.us| && v.us[i] != [] && j < |v.us|
    ensures var w := ReturnU(v, i); Fifo(w.us[j]) && Before(w.q, w.us[j])
  {
    var w := ReturnU(v, i);
    var m := v.us[i][0];
    assert m in v.us[i];
    assert forall x :: x in w.us[j] ==> x in v.us[j];
    assert Fifo(v.us[j]) && Before(v.q, v.us[j]);
    hide Lines;
    forall x, y | x in w.q && y in w.us[j] && x.Data? && y.Data? && x.retries == y.retries ensures x.id < y.id {
      if x !in v.q {
        assert x == m;
        LevelsDisjoint(v, i, j, x, y);
        var k :| 0 <= k < |w.us[j]| && w.us[j][k] == y;
        assert v.us[i][0] == x && v.us[i][k + 1] == y;
      }
    }
  }

  lemma ReturnUFifo(v: View, i: nat)
    requires i < |v.us| && v.us[i] != [] && Fifo(v.q) && Before(v.q, v.us[i])
    ensures Fifo(ReturnU(v, i).q)
  {
    var w := ReturnU(v, i);
    forall a, b | 0 <= a < b < |w.q| && w.q[a].Data? && w.q[b].Data? && w.q[a].retries == w.q[b].retries
      ensures w.q[a].id < w.q[b].id
    {
      if b == |v.q| { assert w.q[a] in v.q && w.q[b] in v.us[i]; }
    }
  }

  lemma ReturnULines(v: View, i: nat)
    requires WellShaped(v) && Levels(v) && Visits(v)
    requires i < |v.us| && v.us[i] != []
    requires Lines(v)
    ensures Lines(ReturnU(v, i))
  {
    var w := ReturnU(v, i);
    assert v.us[i][0] in v.us[i];
    ReturnUFifo(v, i);
    forall j | 0 <= j < |w.us| ensures Fifo(w.us[j]) && Before(w.q, w.us[j]) { ReturnUBefore(v, i, j); }
    hide Levels, Visits, Fifo;
    assert forall j, x :: 0 <= j < |w.us| && x in w.us[j] ==> x in v.us[j];
    forall l, j | 0 <= l < |w.buf| && 0 <= j < |w.us| ensures Before(w.buf[l], w.us[j]) {
      assert Before(v.buf[l], v.us[j]);
    }
    forall l | 0 <= l < |w.buf| ensures Before(w.buf[l], w.q) {
      assert Before(v.buf[l], v.us[i]) && Before(v.buf[l], v.q);
    }
  }

  lemma ReturnUFalls(v: View, i: nat)
    requires WellShaped(v) && Levels(v) && Visits(v) && Falls(v)
    requires i < |v.us| && v.us[i] != []
    ensures Falls(ReturnU(v, i))
  {
    var w := ReturnU(v, i);
    var m := v.us[i][0];
    assert m in v.us[i];
    if m.Data? && m.retries > v.hwm {
      assert OfVisit(m, v.ch, Owner(v.ch, m.retries));
      assert v.cur == Some(i);
      assert forall x :: x in w.us[i] ==> x in v.us[i][1..];
    }
    assert forall j, x :: 0 <= j < |w.us| && x in w.us[j] ==> x in v.us[j];
    assert forall x :: x in w.q ==> x in v.q || x == m;
  }

  lemma ReturnUVisits(v: View, i: nat)
    requires WellShaped(v) && Levels(v) && Visits(v)
    requires i < |v.us| && v.us[i] != []
    requires !v.us[i][0].Syn? && v.us[i][0].retries <= v.max
    ensures Levels(ReturnU(v, i)) && Visits(ReturnU(v, i))
  {
    hide OfVisit;
    var w := ReturnU(v, i);
    var m := v.us[i][0];
    assert m in v.us[i];
    assert forall j, x :: 0 <= j < |w.us| && x in w.us[j] ==> x in v.us[j];
    assert forall x :: x in w.q ==> x in v.q || x == m;
  }

  lemma ReturnUFinOrder(v: View, i: nat)
    requires WellShaped(v) && Fins(v)
    requires i < |v.us| && v.us[i] != [] && !v.us[i][0].Syn?
    ensures FinOrder(ReturnU(v, i))
  {
    var w := ReturnU(v, i);
    var m := v.us[i][0];
    assert m in v.us[i];
    assert FinLast(w.q, w.ch) by {
      forall a, b | 0 <= a < b < |w.q| && w.q[a].Fin? ensures !OfVisit(w.q[b], w.ch, w.q[a].retries) {
        assert w.q[a] in v.q;
        if b == |v.q| { assert Fin(w.q[a].retries) in v.q; }
      }
    }
    assert FinsDistinct(w.q) by {
      forall a, b | 0 <= a < b < |w.q| && w.q[a].Fin? ensures w.q[a] != w.q[b] {
        assert w.q[a] == Fin(w.q[a].retries) && w.q[a] in v.q;
      }
    }
  }

  lemma ReturnUFinExpected(v: View, i: nat)
    requires WellShaped(v) && FinExpected(v) && FinOrder(v)
    requires i < |v.us| && v.us[i] != []
    ensures FinExpected(ReturnU(v, i))
  {
    var w := ReturnU(v, i);
    var m := v.us[i][0];
    assert m in v.us[i];
    assert forall j, x :: 0 <= j < |w.us| && x in w.us[j] ==> x in v.us[j];
    assert forall x :: x in w.q ==> x in v.q || x == m;
    assert forall k :: 0 <= k < |w.us[i]| ==> w.us[i][k] == v.us[i][k + 1];
  }

  lemma ReturnUFinAlone(v: View, i: nat)
    requires WellShaped(v) && Visits(v) && Fins(v)
    requires i < |v.us| && v.us[i] != []
    ensures FinAlone(ReturnU(v, i))
  {
    var w := ReturnU(v, i);
    var m := v.us[i][0];
    assert m in v.us[i];
    forall j, f: nat, x | 0 <= j < |w.us| && Fin(f) in w.q && x in w.us[j] ensures !OfVisit(x, w.ch, f) {
      assert x in v.us[j];
      if Fin(f) !in v.q {
        assert m == Fin(f) && v.via[f] == i;
        if j == i {
          var k :| 0 <= k < |w.us[i]| && w.us[i][k] == x;
          assert v.us[i][k + 1] == x && v.us[i][0] == m;
          assert FinLast(v.us[i], v.ch);
        }
      }
    }
  }

  lemma ReturnUFinPresent(v: View, i: nat)
    requires WellShaped(v) && FinPresent(v)
    requires i < |v.us| && v.us[i] != []
    ensures FinPresent(ReturnU(v, i))
  {
    var w := ReturnU(v, i);
    assert v.us[i] == [v.us[i][0]] + w.us[i];
    assert v.us[i][0] in w.q;
  }

  /** A broker producer sends its oldest message back. */
  lemma ReturnUKeeps(v: View, i: nat)
    requires ViewInv(v)
    requires i < |v.us| && v.us[i] != []
    requires !v.us[i][0].Syn? && v.us[i][0].retries <= v.max
    ensures ViewInv(ReturnU(v, i))
  {
    hide Levels, Sorted, Lines, Falls, Visits, FinOrder, FinExpected, FinAlone, FinPresent;
    ReturnUSorted(v, i);
    ReturnULines(v, i);
    ReturnUFalls(v, i);
    ReturnUVisits(v, i);
    ReturnUFinOrder(v, i);
    ReturnUFinExpected(v, i);
    ReturnUFinAlone(v, i);
    ReturnUFinPresent(v, i);
  }

  // ---------------------------------------------------------------- acknowledgements

  /** A broker producer that still holds the open visit holds the oldest live messages, provided
      none of the visit has come back. */
  lemma OpenVisitIsOldest(v: View, i: nat, k: nat, y: Msg)
    requires ViewInv(v)
    requires i < |v.us| && k < |v.us[i]| && OfVisit(v.us[i][k], v.ch, |v.ch|)
    requires forall x :: x in v.q ==> !OfVisit(x, v.ch, |v.ch|)
    requires Lives(DropU(v, i, 0, k + 1), y)
    ensures v.us[i][k].id < y.id
  {
    hide Fins, Lines, Falls, Levels, Visits;
    var x := v.us[i][k];
    assert x in v.us[i] && InBrokers(v.us, x) && Lives(v, x);
    DropUMembers(v, i, 0, k + 1);
    if y.retries >= x.retries { OpenVisitOlder(v, i, k, y); }
  }

  lemma OpenVisitOlder(v: View, i: nat, k: nat, y: Msg)
    requires ViewInv(v)
    requires i < |v.us| && k < |v.us[i]| && OfVisit(v.us[i][k], v.ch, |v.ch|)
    requires forall x :: x in v.q ==> !OfVisit(x, v.ch, |v.ch|)
    requires Lives(DropU(v, i, 0, k + 1), y) && Lives(v, v.us[i][k]) && Lives(v, y) && y.retries >= v.us[i][k].retries
    ensures v.us[i][k].id < y.id
  {
    hide Fins, Lines, Falls, Levels, Visits, Sorted, Lives;
    OwnerAbove(v, v.us[i][k], y);
    OpenVisitPlace(v, i, k, y);
    var w := DropU(v, i, 0, k + 1);
    var n :| 0 <= n < |w.us[i]| && w.us[i][n] == y;
    OpenVisitFalls(v, i, k, n + k + 1);
  }

  lemma OpenVisitPlace(v: View, i: nat, k: nat, y: Msg)
    requires WellShaped(v) && Levels(v) && Visits(v)
    requires i < |v.us| && k < |v.us[i]| && OfVisit(v.us[i][k], v.ch, |v.ch|)
    requires OfVisit(y, v.ch, |v.ch|) && y !in v.q && y.retries >= v.us[i][k].retries
    requires Lives(DropU(v, i, 0, k + 1), y)
    ensures y in DropU(v, i, 0, k + 1).us[i]
  {
    var w := DropU(v, i, 0, k + 1);
    assert v.us[i][k] in v.us[i];
    assert y.retries < |v.buf| ==> v.buf[y.retries] == [];
    var j :| 0 <= j < |w.us| && y in w.us[j];
    assert y in v.us[j];
  }

  lemma OpenVisitFalls(v: View, i: nat, k: nat, n: nat)
    requires WellShaped(v) && Falls(v) && Lines(v) && Visits(v)
    requires i < |v.us| && k < n < |v.us[i]|
    requires OfVisit(v.us[i][k], v.ch, |v.ch|) && OfVisit(v.us[i][n], v.ch, |v.ch|)
    requires v.us[i][k].retries <= v.us[i][n].retries
    ensures v.us[i][k].id < v.us[i][n].id
  {
    assert v.us[i][k] in v.us[i] && v.us[i][n] in v.us[i];
  }

  lemma OwnerAbove(v: View, x: Msg, y: Msg)
    requires WellShaped(v) && Levels(v)
    requires OfVisit(x, v.ch, |v.ch|) && Lives(v, y) && y.retries >= x.retries
    ensures OfVisit(y, v.ch, |v.ch|)
  {
    assert y.retries <= v.max + 1;
    assert forall l :: x.retries <= l <= v.max ==> !v.ch[l];
  }

  /** What a broker producer holds belongs to the open visit unless a fin is behind it. */
  lemma NoFinIsOpen(v: View, i: nat, x: Msg)
    requires WellShaped(v) && Levels(v) && Visits(v) && Fins(v)
    requires i < |v.us| && x in v.us[i] && x.Data?
    requires forall m :: m in v.us[i] ==> !m.Fin?
    ensures OfVisit(x, v.ch, |v.ch|)
  {
    hide FinOrder, FinExpected;
    var f := Owner(v.ch, x.retries);
    assert OfVisit(x, v.ch, f);
  }

  ghost function AckU(v: View, i: nat, n: nat, ids: seq<nat>): View
    requires i < |v.us| && n <= |v.us[i]|
  {
    DropU(v, i, 0, n).(acked := v.acked + ids)
  }

  lemma AckUOlder(v: View, i: nat, n: nat, k: nat, y: Msg)
    requires ViewInv(v)
    requires i < |v.us| && k < n <= |v.us[i]| && OfVisit(v.us[i][k], v.ch, |v.ch|)
    requires forall x :: x in v.q ==> !OfVisit(x, v.ch, |v.ch|)
    requires Lives(DropU(v, i, 0, n), y)
    ensures v.us[i][k].id < y.id
  {
    hide ViewInv;
    var w, w' := DropU(v, i, 0, n), DropU(v, i, 0, k + 1);
    assert Lives(w', y) by {
      forall j, x | 0 <= j < |w.us| && x in w.us[j] ensures x in w'.us[j] {
        if j == i {
          var p :| 0 <= p < |w.us[i]| && w.us[i][p] == x;
          assert w'.us[i][p + n - k - 1] == x;
        }
      }
    }
    OpenVisitIsOldest(v, i, k, y);
  }

  lemma AckUIncreasing(v: View, i: nat, n: nat, j: nat, k: nat)
    requires ViewInv(v)
    requires i < |v.us| && j < k < n <= |v.us[i]|
    requires OfVisit(v.us[i][j], v.ch, |v.ch|) && v.us[i][k].Data?
    requires forall x :: x in v.q ==> !OfVisit(x, v.ch, |v.ch|)
    ensures v.us[i][j].id < v.us[i][k].id
  {
    hide ViewInv;
    var w := DropU(v, i, 0, j + 1);
    assert w.us[i][k - j - 1] == v.us[i][k];
    assert InBrokers(w.us, v.us[i][k]);
    OpenVisitIsOldest(v, i, j, v.us[i][k]);
  }

  lemma AckUSorted(v: View, i: nat, n: nat, ids: seq<nat>)
    requires ViewInv(v)
    requires i < |v.us| && n <= |v.us[i]| && |ids| == n
    requires forall k :: 0 <= k < n ==> OfVisit(v.us[i][k], v.ch, |v.ch|) && ids[k] == v.us[i][k].id
    requires forall x :: x in v.q ==> !OfVisit(x, v.ch, |v.ch|)
    ensures Sorted(AckU(v, i, n, ids))
  {
    hide Levels, Lines, Falls, Visits, Fins, OfVisit;
    var w := AckU(v, i, n, ids);
    var w0 := DropU(v, i, 0, n);
    DropUMembers(v, i, 0, n);
    assert forall x :: Lives(w, x) <==> Lives(w0, x);
    forall k | 0 <= k < n ensures Lives(v, v.us[i][k]) {
      assert v.us[i][k] in v.us[i] && OfVisit(v.us[i][k], v.ch, |v.ch|);
      OfVisitData(v.us[i][k], v.ch, |v.ch|);
    }
    forall x, k | Lives(w, x) && 0 <= k < |w.acked| ensures w.acked[k] < x.id {
      if k >= |v.acked| { AckUOlder(v, i, n, k - |v.acked|, x); }
    }
    forall j, k | 0 <= j < k < |w.acked| ensures w.acked[j] < w.acked[k] {
      if j >= |v.acked| { AckUIncreasing(v, i, n, j - |v.acked|, k - |v.acked|); }
    }
  }

  lemma OfVisitData(x: Msg, ch: seq<bool>, f: nat)
    requires OfVisit(x, ch, f)
    ensures x.Data?
  {
  }

  /** Acknowledging the front of a healthy broker producer acknowledges the oldest live messages. */
  lemma AckUKeeps(v: View, i: nat, n: nat, ids: seq<nat>)
    requires ViewInv(v)
    requires i < |v.us| && n <= |v.us[i]| && |ids| == n
    requires forall k :: 0 <= k < n ==> OfVisit(v.us[i][k], v.ch, |v.ch|) && ids[k] == v.us[i][k].id
    requires forall x :: x in v.q ==> !OfVisit(x, v.ch, |v.ch|)
    ensures ViewInv(AckU(v, i, n, ids))
  {
    hide Sorted;
    AckUSorted(v, i, n, ids);
    DropUKeeps(v, i, 0, n);
    AckURest(DropU(v, i, 0, n), v.acked + ids);
  }

  lemma AckURest(v: View, acked: seq<nat>)
    requires WellShaped(v) && Levels(v) && Lines(v) && Falls(v) && Visits(v) && Fins(v)
    ensures var w := v.(acked := acked); Levels(w) && Lines(w) && Falls(w) && Visits(w) && Fins(w)
  {
    hide Fifo, Before, Falling, Above, FinLast, MarkersFirst, OneFin, FinsDistinct, OfVisit;
  }
}
