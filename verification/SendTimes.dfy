/** The arithmetic of the load generator's send schedule (loadgen-odin): deadlines in a ring,
    each advanced by one interval when it fires, or snapped forward when it is too late. */
module SendTimes {

  /** The deadline after a send at `now`. */
  function Advance(next: int, now: int, interval: int): int
  {
    if now - (next + interval) > interval then now + interval else next + interval
  }

  /** How often a deadline that is `late` by now fires before it lies in the future. */
  function Fires(late: int, interval: int): nat
  {
    if late < 0 then 0
    else if late < interval then 1
    else if late < 2 * interval then 2
    else if late == 2 * interval then 3
    else 1
  }

  /** A send uses up one firing, and leaves the deadline within one interval of the clock. */
  lemma AdvanceFires(next: int, now: int, interval: int)
    requires interval > 0 && next <= now
    ensures Fires(now - next, interval) == 1 + Fires(now - Advance(next, now, interval), interval)
    ensures now - interval <= Advance(next, now, interval) <= now + interval
    ensures Advance(next, now, interval) >= next + interval
  {
  }

  lemma FiresBound(late: int, interval: int)
    requires interval > 0
    ensures Fires(late, interval) <= 3
    ensures Fires(late, interval) == 3 <==> late == 2 * interval
    ensures Fires(late, interval) > 0 <==> late >= 0
  {
  }

  // ---- sums ----

  function Sum(xs: seq<nat>): nat
  {
    if xs == [] then 0 else Sum(xs[..|xs| - 1]) + xs[|xs| - 1]
  }

  lemma {:induction false} SumUpdate(xs: seq<nat>, i: nat, v: nat)
    requires i < |xs|
    ensures Sum(xs[i := v]) + xs[i] == Sum(xs) + v
  {
    var m := |xs| - 1;
    if i < m {
      SumUpdate(xs[..m], i, v);
      assert xs[i := v][..m] == xs[..m][i := v];
    } else {
      assert xs[i := v][..m] == xs[..m];
    }
  }

  lemma SumPush(xs: seq<nat>, v: nat)
    ensures Sum(xs + [v]) == Sum(xs) + v
  {
    assert (xs + [v])[..|xs|] == xs;
  }

  lemma {:induction false} SumPop(xs: seq<nat>)
    requires xs != []
    ensures Sum(xs) == xs[0] + Sum(xs[1..])
  {
    var m := |xs| - 1;
    if m > 0 {
      SumPop(xs[..m]);
      assert xs[1..] == xs[..m][1..] + [xs[m]];
      SumPush(xs[..m][1..], xs[m]);
    }
  }

  // ---- the ring of send times ----

  const RING := 256

  /** The newest of the sequence numbers 1..fired that shares its slot with `s`; less than 1 if
      there is none. */
  function Newest(fired: int, s: int): int { fired - (fired - s) % RING }

  /** A slot holds the time of sequence number `s` exactly while fewer than 256 newer ones were
      stamped. */
  lemma NewestIs(fired: int, s: int)
    requires s <= fired
    ensures s <= Newest(fired, s) <= fired && (Newest(fired, s) - s) % RING == 0
    ensures Newest(fired, s) == s <==> fired - s < RING
  {
    assert (fired - s) == RING * ((fired - s) / RING) + (fired - s) % RING;
  }

  lemma NewestSlot(fired: int, s: int)
    ensures Newest(fired, s % RING) == Newest(fired, s)
  {
  }

  /** The 32-bit sequence number finds the same slot as the unbounded one. */
  lemma SlotOfWrapped(n: nat)
    ensures (n % 0x1_0000_0000 + 1) % 0x1_0000_0000 == (n + 1) % 0x1_0000_0000
    ensures ((n + 1) % 0x1_0000_0000) % RING == (n + 1) % RING
  {
    var m := n + 1;
    assert m == RING * (0x100_0000 * (m / 0x1_0000_0000)) + m % 0x1_0000_0000;
    SameResidue(m, m % 0x1_0000_0000, 0x100_0000 * (m / 0x1_0000_0000));
  }

  lemma SameResidue(a: int, b: int, k: int)
    requires a == RING * k + b
    ensures a % RING == b % RING
  {
  }

  lemma SlotOwner(m: nat, j: nat)
    requires j < RING
    ensures (m - j) % RING == 0 <==> j == m % RING
  {
  }

  /** What slot `j` holds after stamping at `times`: the time of the newest number that maps to it. */
  function SlotTime(times: seq<int>, j: nat): int
  {
    var q := Newest(|times|, j); if 1 <= q <= |times| then times[q - 1] else 0
  }

  lemma SlotTimeOf(times: seq<int>, s: nat)
    requires 1 <= s <= |times|
    ensures var q := Newest(|times|, s); s <= q <= |times| && SlotTime(times, s % RING) == times[q - 1]
    ensures |times| - s < RING ==> SlotTime(times, s % RING) == times[s - 1]
  {
    hide Newest;
    NewestIs(|times|, s);
    NewestSlot(|times|, s);
  }

  /** Stamping the next number changes the slot of that number only. */
  lemma SlotTimeStep(times: seq<int>, now: int, j: nat)
    requires j < RING
    ensures SlotTime(times + [now], j) == if j == (|times| + 1) % RING then now else SlotTime(times, j)
  {
    hide Newest;
    NewestStep(|times|, j);
    SlotOwner(|times| + 1, j);
  }

  lemma NewestStep(fired: int, s: int)
    ensures Newest(fired + 1, s) == if (fired + 1 - s) % RING == 0 then fired + 1 else Newest(fired, s)
    ensures Newest(fired, s) <= fired && Newest(fired + 1, s) <= fired + 1
  {
  }
}
