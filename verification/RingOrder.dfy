/** When the ring of pending sends (loadgen-odin) is in order, as deadlines only: its sends, its
    joins, and whole send passes over it. */
module RingOrder {
  import opened SendTimes

  /** No deadline is more than `slack` later than one behind it in the ring. */
  predicate Disorder(ns: seq<int>, slack: int)
  {
    forall i, j | 0 <= i < j < |ns| :: ns[i] <= ns[j] + slack
  }

  predicate Sorted(ns: seq<int>) { Disorder(ns, 0) }

  predicate Below(ns: seq<int>, bound: int) { forall i | 0 <= i < |ns| :: ns[i] <= bound }

  /** One send: the head goes to the back with its next deadline. */
  function Fire(ns: seq<int>, now: int, interval: int): (r: seq<int>)
    requires ns != []
    ensures |r| == |ns|
  {
    ns[1..] + [Advance(ns[0], now, interval)]
  }

  /** A send keeps a sorted ring sorted exactly when nothing is left that is later than the
      deadline that goes to the back. */
  lemma FireKeepsSorted(ns: seq<int>, now: int, interval: int)
    requires interval > 0 && ns != [] && ns[0] <= now && Sorted(ns)
    ensures Sorted(Fire(ns, now, interval)) <==> |ns| == 1 || ns[|ns| - 1] <= Advance(ns[0], now, interval)
  {
    var r := Fire(ns, now, interval);
    if |ns| > 1 {
      assert r[|ns| - 2] == ns[|ns| - 1] && r[|ns| - 1] == Advance(ns[0], now, interval);
      forall i, j | 0 <= i < j < |r| && ns[|ns| - 1] <= Advance(ns[0], now, interval) ensures r[i] <= r[j] {
        assert r[i] == ns[i + 1] <= ns[|ns| - 1];
      }
    }
  }

  /** A join puts the latest deadline of all at the back, so it never breaks the order by itself. */
  lemma JoinKeepsSorted(ns: seq<int>, now: int, interval: int)
    requires Sorted(ns) && Below(ns, now + interval)
    ensures Sorted(ns + [now + interval]) && Below(ns + [now + interval], now + interval)
  {
  }

  // ---- whole passes ----

  /** How many sends a pass over the ring can still make. */
  function Work(ns: seq<int>, now: int, interval: int): (w: seq<nat>)
    ensures |w| == |ns|
  {
    seq(|ns|, i requires 0 <= i < |ns| => Fires(now - ns[i], interval))
  }

  lemma FireWorks(ns: seq<int>, now: int, interval: int)
    requires interval > 0 && ns != [] && ns[0] <= now
    ensures Sum(Work(Fire(ns, now, interval), now, interval)) < Sum(Work(ns, now, interval))
  {
    hide Fires, Advance, Sum;
    var w, v := Work(ns, now, interval), Advance(ns[0], now, interval);
    AdvanceFires(ns[0], now, interval);
    SumPop(w);
    SumPush(w[1..], Fires(now - v, interval));
    assert Work(Fire(ns, now, interval), now, interval) == w[1..] + [Fires(now - v, interval)];
  }

  /** A send pass with nobody dead: fire the head until it lies in the future. */
  function Pass(ns: seq<int>, now: int, interval: int): seq<int>
    requires interval > 0
    decreases Sum(Work(ns, now, interval))
  {
    if ns == [] || ns[0] > now then ns
    else
      FireWorks(ns, now, interval);
      Pass(Fire(ns, now, interval), now, interval)
  }

  /** Sorted, and spread over no more than one interval. */
  predicate Cyclic(ns: seq<int>, interval: int)
  {
    Sorted(ns) && (ns != [] ==> ns[|ns| - 1] <= ns[0] + interval)
  }

  /** Nothing snaps: the ring turns, and stays sorted and within one interval. */
  lemma {:induction false} PassTurns(ns: seq<int>, now: int, interval: int)
    requires interval > 0 && Cyclic(ns, interval) && (ns != [] ==> now - ns[0] <= 2 * interval)
    ensures Cyclic(Pass(ns, now, interval), interval)
    decreases Sum(Work(ns, now, interval))
  {
    hide Sum, Work;
    if ns != [] && ns[0] <= now {
      FireWorks(ns, now, interval);
      FireKeepsSorted(ns, now, interval);
      PassTurns(Fire(ns, now, interval), now, interval);
    }
  }

  /** Everything due snaps, or is due just now: all of it goes to the same deadline. */
  lemma {:induction false} PassLevels(ns: seq<int>, now: int, interval: int)
    requires interval > 0 && Sorted(ns) && Below(ns, now + interval)
    requires forall i | 0 <= i < |ns| :: now - ns[i] > 2 * interval || now - ns[i] <= 0
    ensures Sorted(Pass(ns, now, interval))
    decreases Sum(Work(ns, now, interval))
  {
    hide Sum, Work;
    if ns != [] && ns[0] <= now {
      FireWorks(ns, now, interval);
      assert Fire(ns, now, interval) == ns[1..] + [now + interval];
      PassLevels(Fire(ns, now, interval), now, interval);
    }
  }

  /** An entry in the future keeps its place in front of an earlier one: the pass ends before it. */
  lemma {:induction false} PassStuck(ns: seq<int>, now: int, interval: int, i: nat, j: nat)
    requires interval > 0 && i < j < |ns| && ns[i] > now && ns[i] > ns[j]
    ensures !Sorted(Pass(ns, now, interval))
    decreases Sum(Work(ns, now, interval))
  {
    hide Sum, Work;
    if ns[0] <= now {
      FireWorks(ns, now, interval);
      PassStuck(Fire(ns, now, interval), now, interval, i - 1, j - 1);
    }
  }

  /** A snapped entry gets ahead of one that is late but does not snap. */
  lemma {:induction false} PassOvertakes(ns: seq<int>, now: int, interval: int, i: nat, j: nat)
    requires interval > 0 && i < j < |ns| && ns[j] == now + interval
    requires 0 < now - ns[i] <= 2 * interval && forall k | 0 <= k <= i :: ns[k] <= now
    ensures !Sorted(Pass(ns, now, interval))
    decreases Sum(Work(ns, now, interval))
  {
    hide Sum, Work;
    var r := Fire(ns, now, interval);
    FireWorks(ns, now, interval);
    if i == 0 {
      assert r[|r| - 1] == ns[0] + interval && r[j - 1] == ns[j];
      PassStuck(r, now, interval, j - 1, |r| - 1);
    } else {
      assert forall k | 0 <= k <= i - 1 :: r[k] == ns[k + 1];
      PassOvertakes(r, now, interval, i - 1, j - 1);
    }
  }

  function Shift(ns: seq<int>, interval: int): (r: seq<int>)
    ensures |r| == |ns| && forall i | 0 <= i < |ns| :: r[i] == ns[i] + interval
  {
    seq(|ns|, i requires 0 <= i < |ns| => ns[i] + interval)
  }

  /** A full turn in which everything is due and nothing snaps. */
  lemma {:induction false} PassRound(ns: seq<int>, now: int, interval: int, k: nat)
    requires interval > 0 && k <= |ns| && forall i | 0 <= i < |ns| :: 0 <= now - ns[i] <= 2 * interval
    ensures Pass(ns, now, interval) == Pass(ns[k..] + Shift(ns[..k], interval), now, interval)
  {
    hide Sum, Work;
    if k == 0 {
      assert ns[0..] + Shift(ns[..0], interval) == ns;
    } else {
      var r := ns[k - 1..] + Shift(ns[..k - 1], interval);
      PassRound(ns, now, interval, k - 1);
      assert r[0] == ns[k - 1];
      assert Fire(r, now, interval) == ns[k..] + Shift(ns[..k], interval);
    }
  }

  /** Nothing snaps, but the ring is spread too far: its head ends up behind a later entry. */
  lemma PassTears(ns: seq<int>, now: int, interval: int)
    requires interval > 0 && ns != [] && Sorted(ns) && 0 <= now - ns[0] <= 2 * interval
    requires ns[|ns| - 1] > ns[0] + interval
    ensures !Sorted(Pass(ns, now, interval))
  {
    hide Sum, Work, Pass;
    var n := |ns|;
    if ns[n - 1] > now {
      PassFire(ns, now, interval);
      PassStuck(Fire(ns, now, interval), now, interval, n - 2, n - 1);
    } else {
      PassRound(ns, now, interval, n);
      var ms := ns[n..] + Shift(ns[..n], interval);
      assert ms == Shift(ns, interval);
      PassFire(ms, now, interval);
      PassStuck(Fire(ms, now, interval), now, interval, n - 2, n - 1);
    }
  }

  lemma PassFire(ns: seq<int>, now: int, interval: int)
    requires interval > 0 && ns != [] && ns[0] <= now
    ensures Pass(ns, now, interval) == Pass(Fire(ns, now, interval), now, interval)
  {
    hide Sum, Work;
  }

  /** A send pass over a sorted ring leaves it sorted exactly when nothing was due; or nothing
      snaps and the ring is spread over at most one interval; or whatever is due snaps or is due
      just now. */
  lemma PassKeepsSorted(ns: seq<int>, now: int, interval: int)
    requires interval > 0 && Sorted(ns) && Below(ns, now + interval)
    ensures Sorted(Pass(ns, now, interval)) <==>
              || ns == [] || ns[0] > now
              || (if now - ns[0] <= 2 * interval then ns[|ns| - 1] <= ns[0] + interval
                  else forall i | 0 <= i < |ns| :: now - ns[i] > 2 * interval || now - ns[i] <= 0)
  {
    hide Sum, Work;
    if ns != [] && ns[0] <= now {
      if now - ns[0] <= 2 * interval {
        if ns[|ns| - 1] <= ns[0] + interval {
          PassTurns(ns, now, interval);
        } else {
          PassTears(ns, now, interval);
        }
      } else if i: nat :| i < |ns| && 0 < now - ns[i] <= 2 * interval {
        var r := Fire(ns, now, interval);
        assert r[|r| - 1] == now + interval && forall k | 0 <= k <= i - 1 :: r[k] == ns[k + 1];
        PassOvertakes(r, now, interval, i - 1, |r| - 1);
      } else {
        PassLevels(ns, now, interval);
      }
    }
  }

  /** For a ring within one interval, what decides is only its first and last entry: it stays
      sorted exactly when none of it snaps or all of it does. */
  lemma PassKeepsCyclicSorted(ns: seq<int>, now: int, interval: int)
    requires interval > 0 && Cyclic(ns, interval) && Below(ns, now + interval)
    ensures Sorted(Pass(ns, now, interval)) <==>
              ns == [] || now - ns[0] <= 2 * interval || now - ns[|ns| - 1] > 2 * interval
  {
    hide Sum, Work, Pass;
    PassKeepsSorted(ns, now, interval);
    if ns != [] && now - ns[0] > 2 * interval && now - ns[|ns| - 1] > 2 * interval {
      assert forall i | 0 <= i < |ns| :: ns[i] <= ns[|ns| - 1];
    }
  }

  // ---- in step: sorted and within one interval ----

  /** A send leaves the ring in step exactly when it does not snap past another overdue entry. */
  lemma FireKeepsCyclic(ns: seq<int>, now: int, interval: int)
    requires interval > 0 && ns != [] && ns[0] <= now && Cyclic(ns, interval)
    ensures Cyclic(Fire(ns, now, interval), interval)
       <==> |ns| == 1 || now - ns[0] <= 2 * interval || now <= ns[1]
  {
    var r := Fire(ns, now, interval);
    FireKeepsSorted(ns, now, interval);
    if |ns| > 1 {
      assert r[0] == ns[1] && r[|r| - 1] == Advance(ns[0], now, interval);
    }
  }

  /** A join leaves the ring in step exactly when no send is overdue at that moment. */
  lemma JoinKeepsCyclic(ns: seq<int>, now: int, interval: int)
    requires interval > 0 && Cyclic(ns, interval) && Below(ns, now + interval)
    ensures Cyclic(ns + [now + interval], interval) <==> ns == [] || now <= ns[0]
  {
    var r := ns + [now + interval];
    JoinKeepsSorted(ns, now, interval);
    assert r[|r| - 1] == now + interval;
    if ns != [] { assert r[0] == ns[0]; }
  }

  /** The ring need not stay sorted: a send after a join among overdue sends, and a send pass over
      a ring of which one entry snaps and one does not; the latter by the full two intervals. */
  lemma RingNotAlwaysSorted()
    ensures Cyclic([5], 10) && Sorted([5] + [7 + 10]) && !Sorted(Fire([5, 17], 7, 10))
    ensures Cyclic([0, 5], 10) && Below([0, 5], 25 + 10)
    ensures var r := Fire(Fire([0, 5], 25, 10), 25, 10);
            Pass([0, 5], 25, 10) == r && !Disorder(r, 2 * 10 - 1) && Disorder(r, 2 * 10)
  {
    var r := Fire([5, 17], 7, 10);
    assert r[0] == 17 && r[1] == 15;
    PassFire([0, 5], 25, 10);
    PassFire([5, 35], 25, 10);
    var twice := Fire([5, 35], 25, 10);
    assert twice[0] == 35 && twice[1] == 15;
  }
}
