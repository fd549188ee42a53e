/** The balance score: the sum, over all unordered pairs of members, of the difference of their
    loads; and what one move does to it. */
module StickyScore {
  import opened StickyMovements

  type Loads = map<Member, nat>

  function Gap(a: int, b: int): nat {
    if a < b then b - a else a - b
  }

  /** The sum of the gaps between `l` and the loads of the members in `ms`. */
  ghost function Gaps(l: int, ms: set<Member>, load: Loads): nat
    requires ms <= load.Keys
  {
    if ms == {} then 0 else var m :| m in ms; Gap(l, load[m]) + Gaps(l, ms - {m}, load)
  }

  ghost function Score(ms: set<Member>, load: Loads): nat
    requires ms <= load.Keys
  {
    if ms == {} then 0 else var m :| m in ms; Gaps(load[m], ms - {m}, load) + Score(ms - {m}, load)
  }

  lemma {:induction false} GapsFromAny(l: int, ms: set<Member>, load: Loads, x: Member)
    requires ms <= load.Keys && x in ms
    ensures Gaps(l, ms, load) == Gap(l, load[x]) + Gaps(l, ms - {x}, load)
    decreases ms
  {
    var m :| m in ms && Gaps(l, ms, load) == Gap(l, load[m]) + Gaps(l, ms - {m}, load);
    if m != x {
      GapsFromAny(l, ms - {m}, load, x);
      GapsFromAny(l, ms - {x}, load, m);
      assert ms - {m} - {x} == ms - {x} - {m};
    }
  }

  /** The score does not depend on the order in which members are visited. */
  lemma {:induction false} ScoreFromAny(ms: set<Member>, load: Loads, x: Member)
    requires ms <= load.Keys && x in ms
    ensures Score(ms, load) == Gaps(load[x], ms - {x}, load) + Score(ms - {x}, load)
    decreases ms
  {
    var m :| m in ms && Score(ms, load) == Gaps(load[m], ms - {m}, load) + Score(ms - {m}, load);
    if m != x {
      ScoreFromAny(ms - {m}, load, x);
      ScoreFromAny(ms - {x}, load, m);
      GapsFromAny(load[m], ms - {m}, load, x);
      GapsFromAny(load[x], ms - {x}, load, m);
      assert ms - {m} - {x} == ms - {x} - {m};
    }
  }

  // --------------------------------------------------------------------------- one move

  function Moved(load: Loads, a: Member, b: Member): Loads
    requires a in load && b in load && a != b && load[a] > 0
  {
    load[a := load[a] - 1][b := load[b] + 1]
  }

  lemma {:induction false} GapsAgree(l: int, ms: set<Member>, load: Loads, load': Loads)
    requires ms <= load.Keys && ms <= load'.Keys && forall m :: m in ms ==> load[m] == load'[m]
    ensures Gaps(l, ms, load) == Gaps(l, ms, load')
    decreases ms
  {
    if ms != {} {
      var x :| x in ms;
      GapsFromAny(l, ms, load, x);
      GapsFromAny(l, ms, load', x);
      GapsAgree(l, ms - {x}, load, load');
    }
  }

  lemma {:induction false} ScoresAgree(ms: set<Member>, load: Loads, load': Loads)
    requires ms <= load.Keys && ms <= load'.Keys && forall m :: m in ms ==> load[m] == load'[m]
    ensures Score(ms, load) == Score(ms, load')
    decreases ms
  {
    if ms != {} {
      var x :| x in ms;
      ScoreFromAny(ms, load, x);
      ScoreFromAny(ms, load', x);
      GapsAgree(load[x], ms - {x}, load, load');
      ScoresAgree(ms - {x}, load, load');
    }
  }

  /** Drawing two loads towards each other does not widen their gaps to the others. */
  lemma {:induction false} GapsConvex(a: int, b: int, ms: set<Member>, load: Loads)
    requires ms <= load.Keys && b < a
    ensures Gaps(a - 1, ms, load) + Gaps(b + 1, ms, load) <= Gaps(a, ms, load) + Gaps(b, ms, load)
    decreases ms
  {
    if ms != {} {
      var x :| x in ms;
      GapsFromAny(a, ms, load, x);
      GapsFromAny(b, ms, load, x);
      GapsFromAny(a - 1, ms, load, x);
      GapsFromAny(b + 1, ms, load, x);
      GapsConvex(a, b, ms - {x}, load);
    }
  }

  lemma ScoreOfTwo(ms: set<Member>, load: Loads, a: Member, b: Member)
    requires ms <= load.Keys && a in ms && b in ms && a != b
    ensures var rest := ms - {a} - {b};
            Score(ms, load) == Gap(load[a], load[b]) + Gaps(load[a], rest, load) + Gaps(load[b], rest, load) + Score(rest, load)
  {
    ScoreFromAny(ms, load, a);
    ScoreFromAny(ms - {a}, load, b);
    GapsFromAny(load[a], ms - {a}, load, b);
  }

  /** Hill-climb measure: a move from a to b lowers the score exactly when a holds at least two more
      than b, and then by at least two. From one above it changes nothing; otherwise it raises it. */
  lemma MoveChangesScore(ms: set<Member>, load: Loads, a: Member, b: Member)
    requires ms == load.Keys && a in ms && b in ms && a != b && load[a] > 0
    ensures var now := Moved(load, a, b);
            && now.Keys == ms
            && (load[a] >= load[b] + 2 ==> Score(ms, now) + 2 <= Score(ms, load))
            && (load[a] == load[b] + 1 ==> Score(ms, now) == Score(ms, load))
            && (load[a] <= load[b] ==> Score(ms, now) >= Score(ms, load) + 2)
  {
    hide Gaps, Score;
    var now := Moved(load, a, b);
    var rest := ms - {a} - {b};
    ScoreOfTwo(ms, load, a, b);
    ScoreOfTwo(ms, now, a, b);
    GapsAgree(now[a], rest, load, now);
    GapsAgree(now[b], rest, load, now);
    ScoresAgree(rest, load, now);
    if load[b] < load[a] { GapsConvex(load[a], load[b], rest, load); }
    else { GapsConvex(now[b], now[a], rest, load); }
  }

  // ------------------------------------------------------------------------ as computed

  function LoadsOf(assignment: map<Member, seq<Partition>>): Loads {
    map m | m in assignment :: |assignment[m]|
  }

  method GetBalanceScore(assignment: map<Member, seq<Partition>>) returns (score: nat)
    ensures score == Score(assignment.Keys, LoadsOf(assignment))
  {
    score := 0;
    var load := LoadsOf(assignment);
    var left := assignment.Keys;
    while left != {}
      invariant left <= load.Keys
      invariant score + Score(left, load) == Score(assignment.Keys, load)
      decreases left
    {
      var m :| m in left;
      ScoreFromAny(left, load, m);
      left := left - {m};
      var others := left;
      ghost var base := score;
      while others != {}
        invariant others <= left
        invariant score + Gaps(load[m], others, load) == base + Gaps(load[m], left, load)
        decreases others
      {
        var o :| o in others;
        GapsFromAny(load[m], others, load, o);
        score := score + Gap(load[m], load[o]);
        others := others - {o};
      }
    }
  }
}
