/** The ring of connections waiting to send (loadgen-odin): a fixed buffer with head and count. */
module Sched {
  import opened SendTimes

  /** A simulated player's connection, as far as the send schedule and the latency measurement
      are concerned. */
  class Client {
    var joined: bool
    var dead: bool
    var myId: int
    var seqNo: int
    const sendAt: array<int>
    var nextSend: int
    /** The history: all send times so far, the join time, the time lost to snap-forwards, and
        whether the schedule has dropped the connection as dead. */
    ghost var times: seq<int>
    ghost var joinedAt: int
    ghost var slack: nat
    ghost var dropped: bool

    constructor ()
      ensures Valid() && !joined && !dead && !dropped && times == [] && fresh(sendAt)
    {
      joined, dead, myId, seqNo, nextSend := false, false, 0, 0, 0;
      sendAt := new int[RING](_ => 0);
      times, joinedAt, slack, dropped := [], 0, 0, false;
    }

    /** Every slot holds the time of the newest sequence number that maps to it, or 0. */
    ghost predicate Valid()
      reads this`seqNo, this`times, sendAt
    {
      && sendAt.Length == RING
      && seqNo == |times| % 0x1_0000_0000
      && forall j | 0 <= j < RING :: sendAt[j] == SlotTime(times, j)
    }

    /** Stamps the next move, whatever the server does. */
    method Stamp(now: int)
      requires Valid()
      modifies `seqNo, `times, sendAt
      ensures Valid() && times == old(times) + [now]
    {
      hide Newest;
      SlotOfWrapped(|times|);
      seqNo := (seqNo + 1) % 0x1_0000_0000;
      sendAt[seqNo % RING] := now;
      times := times + [now];
      forall j | 0 <= j < RING
        ensures sendAt[j] == SlotTime(times, j)
      {
        SlotTimeStep(old(times), now, j);
      }
    }

    /** The time in the slot of sequence number `s`: its own send time, if fewer than 256 newer
        ones were stamped, and a newer one's otherwise; 0 while the slot is unused. */
    method SentAt(s: nat) returns (t: int)
      requires Valid()
      ensures t == SlotTime(times, s % RING)
      ensures 1 <= s <= |times| ==> var q := Newest(|times|, s); s <= q <= |times| && t == times[q - 1]
      ensures 1 <= s <= |times| && |times| - s < RING ==> t == times[s - 1]
    {
      hide Newest;
      t := sendAt[s % RING];
      if 1 <= s <= |times| { SlotTimeOf(times, s); }
    }
  }

  class Ring {
    const buf: array<Client?>
    var head: nat
    var count: nat
    /** The entries, head first. */
    ghost var queue: seq<Client>

    ghost predicate Valid()
      reads this, buf
    {
      && head < buf.Length && |queue| == count <= buf.Length
      && forall i | 0 <= i < count :: buf[Slot(i)] == queue[i]
    }

    function Slot(i: nat): nat
      requires head < buf.Length && i < buf.Length
      reads this
    {
      if head + i < buf.Length then head + i else head + i - buf.Length
    }

    constructor (capacity: nat)
      requires capacity > 0
      ensures Valid() && queue == [] && buf.Length == capacity && fresh(buf)
    {
      buf := new Client?[capacity](_ => null);
      head, count, queue := 0, 0, [];
    }

    method Push(c: Client)
      requires Valid() && count < buf.Length
      modifies `count, `queue, buf
      ensures Valid() && queue == old(queue) + [c]
    {
      SlotIs(head + count, buf.Length);
      assert forall i | 0 <= i < count :: Slot(i) != Slot(count);
      buf[(head + count) % buf.Length] := c;
      count := count + 1;
      queue := queue + [c];
    }

    function Head(): (c: Client)
      requires Valid() && count > 0
      reads this, buf
      ensures c == queue[0]
    {
      assert Slot(0) == head;
      buf[head]
    }

    method Pop() returns (c: Client)
      requires Valid() && count > 0
      modifies `head, `count, `queue
      ensures Valid() && c == old(queue)[0] && queue == old(queue)[1..]
    {
      assert Slot(0) == head;
      c := buf[head];
      SlotIs(head + 1, buf.Length);
      head := (head + 1) % buf.Length;
      count := count - 1;
      queue := queue[1..];
      assert forall i: nat | i < count :: Slot(i) == old(Slot(i + 1));
    }
  }

  lemma SlotIs(x: nat, n: nat)
    requires n > 0 && x < 2 * n
    ensures x % n == if x < n then x else x - n
  {
    if x >= n { assert x == n + (x - n); }
  }
}
