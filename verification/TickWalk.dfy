/** Whom the range loop of a tick reaches (servers/go-epoll), in any state of the member lists: it
    walks over the slice header of the start while failed writes shrink and overwrite the list. */
module TickWalk {
  import opened Wire
  import opened Lists
  import opened Sequences
  import P = Peers
  import O = Outbound

  predicate Walkable<C>(s: State<C>, k: P.Place, n: nat)
  {
    Sane(s) && k in s.rooms && n <= |s.rooms[k].slots|
  }

  /** The owners of the slots `i` to `n` as the loop finds them, in order. */
  function Visited<C>(s: State<C>, k: P.Place, i: nat, n: nat, frame: Bytes): (cs: seq<C>)
    requires Walkable(s, k, n)
    ensures |cs| == if i >= n then 0 else n - i
    decreases n - i
  {
    if i >= n then []
    else
      WalkOn(s, k, i, n, frame);
      [s.rooms[k].slots[i]] + Visited(Offered(s, s.rooms[k].slots[i], frame), k, i + 1, n, frame)
  }

  lemma WalkOn<C>(s: State<C>, k: P.Place, i: nat, n: nat, frame: Bytes)
    requires Walkable(s, k, n) && i < n
    ensures s.rooms[k].slots[i] in s.peers && Walkable(Offered(s, s.rooms[k].slots[i], frame), k, n)
  {
    SaneRoom(s, k);
  }

  /** What the loop makes of a connection that it finds `times` times. */
  function OfferTimes(p: P.Peer, frame: Bytes, times: nat): P.Peer
    decreases times
  {
    if times == 0 then p else OfferTimes(P.Offer(p, frame), frame, times - 1)
  }

  function Count<C(==)>(cs: seq<C>, c: C): nat
  {
    if cs == [] then 0 else (if cs[0] == c then 1 else 0) + Count(cs[1..], c)
  }

  /** Everyone is offered the frame as often as the loop finds them, and nobody else is touched. */
  lemma {:induction false} WalkOffers<C>(s: State<C>, k: P.Place, i: nat, n: nat, frame: Bytes, c: C)
    requires Walkable(s, k, n) && c in s.peers
    ensures c in Walked(s, k, i, n, frame).peers
    ensures Walked(s, k, i, n, frame).peers[c] == OfferTimes(s.peers[c], frame, Count(Visited(s, k, i, n, frame), c))
    decreases n - i
  {
    hide Sane, P.Offer, Become, Walkable, Walked;
    assert Sane(s) && k in s.rooms && n <= |s.rooms[k].slots| by { WalkableMeans(s, k, n); }
    if i >= n {
      WalkedPast(s, k, i, n, frame);
    } else {
      var d := s.rooms[k].slots[i];
      WalkOn(s, k, i, n, frame);
      WalkedStep(s, k, i, n, frame);
      var t := Offered(s, d, frame);
      var rest := Visited(t, k, i + 1, n, frame);
      assert ([d] + rest)[1..] == rest;
      WalkOffers(t, k, i + 1, n, frame, c);
    }
  }

  lemma WalkableMeans<C>(s: State<C>, k: P.Place, n: nat)
    requires Walkable(s, k, n)
    ensures Sane(s) && k in s.rooms && n <= |s.rooms[k].slots|
  {
  }

  // ---- each list slot ----

  /** A step overwrites at most one slot, one that held the connection of that step. */
  lemma OneOverwritten<C>(s: State<C>, k: P.Place, i: nat, n: nat, frame: Bytes, j: nat)
    requires Walkable(s, k, n) && i < n && j < n
    ensures Walkable(Offered(s, s.rooms[k].slots[i], frame), k, n)
    ensures var c, t := s.rooms[k].slots[i], Offered(s, s.rooms[k].slots[i], frame);
            t.rooms[k].slots[j] == s.rooms[k].slots[j] || s.rooms[k].slots[j] == c
  {
    WalkOn(s, k, i, n, frame);
    SaneConn(s, s.rooms[k].slots[i]);
    hide P.Offer;
  }

  /** In every state, each owner of a slot is reached at least once. */
  lemma {:induction false} AllReached<C>(s: State<C>, k: P.Place, i: nat, n: nat, frame: Bytes, j: nat)
    requires Walkable(s, k, n) && i <= j < n
    ensures s.rooms[k].slots[j] in Visited(s, k, i, n, frame)
    decreases n - i
  {
    hide Sane, Offered;
    WalkOn(s, k, i, n, frame);
    if s.rooms[k].slots[j] != s.rooms[k].slots[i] {
      OneOverwritten(s, k, i, n, frame, j);
      AllReached(Offered(s, s.rooms[k].slots[i], frame), k, i + 1, n, frame, j);
    }
  }

  /** If no connection has two of the slots, each owner is reached exactly once, in list order, whatever
      fails on the way. */
  lemma {:induction false} DistinctOnce<C>(s: State<C>, k: P.Place, i: nat, n: nat, frame: Bytes)
    requires Walkable(s, k, n) && i <= n && Distinct(s.rooms[k].slots[i..n])
    ensures Visited(s, k, i, n, frame) == s.rooms[k].slots[i..n]
    decreases n - i
  {
    hide Sane, Offered;
    if i < n {
      var l := s.rooms[k].slots;
      var t := WalkedOne(s, k, i, n, frame);
      forall j | i < j < n ensures t.rooms[k].slots[j] == l[j] {
        OneOverwritten(s, k, i, n, frame, j);
        assert l[i..n][0] != l[i..n][j - i];
      }
      assert t.rooms[k].slots[i + 1..n] == l[i + 1..n] == l[i..n][1..];
      DistinctOnce(t, k, i + 1, n, frame);
      assert l[i..n] == [l[i]] + l[i + 1..n];
    }
  }

  function WalkedOne<C>(s: State<C>, k: P.Place, i: nat, n: nat, frame: Bytes): (t: State<C>)
    requires Walkable(s, k, n) && i < n
    ensures Walkable(t, k, n) && s.rooms[k].slots[i] in s.peers && t == Offered(s, s.rooms[k].slots[i], frame)
  {
    WalkOn(s, k, i, n, frame);
    Offered(s, s.rooms[k].slots[i], frame)
  }

  /** Everyone is reached at most once if and only if no connection has two of the slots. */
  lemma OnceIffDistinct<C>(s: State<C>, k: P.Place, i: nat, n: nat, frame: Bytes)
    requires Walkable(s, k, n) && i <= n && s.rooms[k].n <= n
    ensures Distinct(Visited(s, k, i, n, frame)) <==> Distinct(s.rooms[k].slots[i..n])
  {
    hide Sane, Visited;
    var cs, l := Visited(s, k, i, n, frame), s.rooms[k].slots[i..n];
    if Distinct(l) {
      DistinctOnce(s, k, i, n, frame);
    } else if Distinct(cs) {
      var a, b :| 0 <= a < b < |l| && l[a] == l[b];
      var fewer := l[..b] + l[b + 1..];
      forall c | c in cs ensures c in fewer {
        VisitedHeld(s, k, i, n, frame, c);
        var j :| 0 <= j < |l| && l[j] == c;
        assert if j < b then fewer[j] == c else if j == b then fewer[a] == c else fewer[j - 1] == c;
      }
      DistinctWithin(cs, fewer);
      assert false;
    }
  }

  const ROOM := P.In(7)
  const FAILING := P.Peer(1, ROOM, 0, 0, 0, 0, 0, O.FRESH.(script := [O.Hard]))
  const HEALTHY := P.Peer(2, ROOM, 0, 0, 0, 0, 0, O.FRESH)
  const DOUBLED: State<nat> :=
    State(map[ROOM := Members([0, 0, 1], 3, 0)], map[0 := FAILING, 1 := HEALTHY], map[0 := 1, 1 := 2])

  /** With a connection in two slots it need not be so: here the first of them fails, the last member is
      moved into the second, and is offered the frame twice. */
  lemma TwiceReached(frame: Bytes)
    ensures Walkable(DOUBLED, ROOM, 3) && Visited(DOUBLED, ROOM, 0, 3, frame) == [0, 1, 1]
  {
    hide Sane, Offered, P.Offer;
    DoubledSane();
    var t := WalkedOne(DOUBLED, ROOM, 0, 3, frame);
    FirstFails(frame);
    SecondHealthy(t, frame);
    var u := WalkedOne(t, ROOM, 1, 3, frame);
    assert Visited(u, ROOM, 3, 3, frame) == [];
    VisitedStep(DOUBLED, ROOM, 0, 3, frame);
    VisitedStep(t, ROOM, 1, 3, frame);
    VisitedStep(u, ROOM, 2, 3, frame);
  }

  lemma DoubledSane()
    ensures Walkable(DOUBLED, ROOM, 3)
  {
    assert RoomSane(DOUBLED, ROOM);
  }

  lemma VisitedStep<C>(s: State<C>, k: P.Place, i: nat, n: nat, frame: Bytes)
    requires Walkable(s, k, n) && i < n
    ensures Visited(s, k, i, n, frame) ==
              [s.rooms[k].slots[i]] + Visited(WalkedOne(s, k, i, n, frame), k, i + 1, n, frame)
  {
  }

  lemma FirstFails(frame: Bytes)
    requires Walkable(DOUBLED, ROOM, 3)
    ensures var t := WalkedOne(DOUBLED, ROOM, 0, 3, frame);
            t.rooms[ROOM] == Members([0, 1, 1], 2, 0) && 1 in t.peers && t.peers[1] == HEALTHY
  {
    assert P.Offer(FAILING, frame).o.closed;
  }

  lemma SecondHealthy(t: State<nat>, frame: Bytes)
    requires Walkable(t, ROOM, 3) && t.rooms[ROOM] == Members([0, 1, 1], 2, 0) && 1 in t.peers && t.peers[1] == HEALTHY
    ensures WalkedOne(t, ROOM, 1, 3, frame).rooms[ROOM].slots == [0, 1, 1]
  {
    assert !P.Offer(HEALTHY, frame).o.closed;
  }

  // ---- who is written to ----

  /** The write system call is made exactly when nothing is queued; otherwise the kernel sees nothing. */
  lemma QueuedIsQuiet(o: O.Out, frame: Bytes)
    requires o.wbuf != []
    ensures O.Enqueue(o, frame).script == o.script && O.Enqueue(o, frame).sent == o.sent
    ensures O.Enqueue(o, frame).wbuf != [] && O.Enqueue(o, frame).closed == o.closed
  {
  }

  /** The loop reaches `c` at a moment when nothing is queued for it, and so writes to its socket. */
  predicate WrittenTo<C(==)>(s: State<C>, k: P.Place, i: nat, n: nat, frame: Bytes, c: C)
    requires Walkable(s, k, n)
    decreases n - i
  {
    i < n && (
      || (s.rooms[k].slots[i] == c && c in s.peers && s.peers[c].o.wbuf == [])
      || WrittenTo(WalkedOne(s, k, i, n, frame), k, i + 1, n, frame, c))
  }

  /** The slots still to come hold the same connections after a step, but for that of the step. */
  lemma RestSame<C>(s: State<C>, k: P.Place, i: nat, n: nat, frame: Bytes, c: C)
    requires Walkable(s, k, n) && i < n && s.rooms[k].n <= n && c != s.rooms[k].slots[i]
    ensures c in WalkedOne(s, k, i, n, frame).rooms[k].slots[i + 1..n] <==> c in s.rooms[k].slots[i + 1..n]
  {
    var l, t := s.rooms[k].slots, WalkedOne(s, k, i, n, frame).rooms[k].slots;
    hide Sane, Offered, RoomSane;
    if c in l[i + 1..n] {
      var j :| i < j < n && l[j] == c;
      OneOverwritten(s, k, i, n, frame, j);
      assert t[i + 1..n][j - i - 1] == c;
    }
    if c in t[i + 1..n] {
      var j :| i < j < n && t[j] == c;
      NothingNew(s, k, i, n, frame, j);
    }
  }

  lemma NothingNew<C>(s: State<C>, k: P.Place, i: nat, n: nat, frame: Bytes, j: nat)
    requires Walkable(s, k, n) && i < j < n && s.rooms[k].n <= n
    ensures var c := WalkedOne(s, k, i, n, frame).rooms[k].slots[j];
            c in s.rooms[k].slots[i + 1..n] || c == s.rooms[k].slots[i]
  {
    var l, t := s.rooms[k], WalkedOne(s, k, i, n, frame);
    SaneConn(s, l.slots[i]);
    hide Sane, P.Offer;
    var c := t.rooms[k].slots[j];
    var m := if l.slots[j] == c then j else l.n - 1;
    if c != l.slots[i] {
      assert l.slots[m] == c;
      assert l.slots[i + 1..n][m - i - 1] == c;
    }
  }

  /** In every state, a connection is written to exactly when it has one of the slots and nothing is
      queued for it. */
  lemma {:induction false} WrittenIff<C>(s: State<C>, k: P.Place, i: nat, n: nat, frame: Bytes, c: C)
    requires Walkable(s, k, n) && c in s.peers && s.rooms[k].n <= n
    ensures WrittenTo(s, k, i, n, frame, c) <==> i < n && c in s.rooms[k].slots[i..n] && s.peers[c].o.wbuf == []
    decreases n - i
  {
    hide Sane, RoomSane, P.Offer, Become;
    if i < n {
      var d := s.rooms[k].slots[i];
      var t := WalkedOne(s, k, i, n, frame);
      assert s.rooms[k].slots[i..n] == [d] + s.rooms[k].slots[i + 1..n];
      ShorterList(s, k, i, n, frame);
      WrittenIff(t, k, i + 1, n, frame, c);
      if d == c {
        if s.peers[c].o.wbuf != [] { OfferQueue(s.peers[c], frame); }
      } else {
        RestSame(s, k, i, n, frame, c);
      }
    }
  }

  lemma OfferQueue(p: P.Peer, frame: Bytes)
    requires p.o.wbuf != []
    ensures P.Offer(p, frame).o.wbuf != []
  {
    QueuedIsQuiet(p.o, frame);
  }

  lemma ShorterList<C>(s: State<C>, k: P.Place, i: nat, n: nat, frame: Bytes)
    requires Walkable(s, k, n) && i < n && s.rooms[k].n <= n
    ensures WalkedOne(s, k, i, n, frame).rooms[k].n <= n
  {
    hide P.Offer;
    WalkOn(s, k, i, n, frame);
    SaneConn(s, s.rooms[k].slots[i]);
  }

  // ---- what the kernel sees ----

  lemma {:induction false} OfferTimesAsks(p: P.Peer, frame: Bytes, times: nat)
    ensures var q := OfferTimes(p, frame, times);
            && |q.o.script| <= |p.o.script|
            && (p.o.wbuf == [] && times > 0 && p.o.script != [] ==> |q.o.script| < |p.o.script|)
            && (p.o.wbuf != [] || times == 0 ==> q.o.script == p.o.script && q.o.sent == p.o.sent)
            && (p.o.wbuf != [] ==> p.o.wbuf <= q.o.wbuf)
    decreases times
  {
    if times > 0 { OfferTimesAsks(P.Offer(p, frame), frame, times - 1); }
  }

  lemma {:induction false} Counted<C>(cs: seq<C>, c: C)
    ensures Count(cs, c) > 0 <==> c in cs
  {
    if cs != [] { Counted(cs[1..], c); }
  }

  /** Being written to is what the kernel notices: it gives one of its answers. To others nothing goes. */
  lemma WrittenAsks<C>(s: State<C>, k: P.Place, n: nat, frame: Bytes, c: C)
    requires Walkable(s, k, n) && c in s.peers && s.rooms[k].n <= n
    ensures c in Walked(s, k, 0, n, frame).peers
    ensures var o, later := s.peers[c].o, Walked(s, k, 0, n, frame).peers[c].o;
            if WrittenTo(s, k, 0, n, frame, c) then o.script == [] || |later.script| < |o.script|
            else later.script == o.script && later.sent == o.sent && (o.wbuf != [] ==> later.wbuf != [])
  {
    hide Sane, Visited, Walked, WrittenTo, P.Offer;
    WrittenIff(s, k, 0, n, frame, c);
    WalkOffers(s, k, 0, n, frame, c);
    var cs := Visited(s, k, 0, n, frame);
    OfferTimesAsks(s.peers[c], frame, Count(cs, c));
    Counted(cs, c);
    if WrittenTo(s, k, 0, n, frame, c) {
      var j :| 0 <= j < n && s.rooms[k].slots[j] == c;
      AllReached(s, k, 0, n, frame, j);
    } else if s.peers[c].o.wbuf == [] {
      VisitedHeld(s, k, 0, n, frame, c);
    }
  }

  /** Only owners of slots are reached. */
  lemma {:induction false} VisitedHeld<C>(s: State<C>, k: P.Place, i: nat, n: nat, frame: Bytes, c: C)
    requires Walkable(s, k, n) && i <= n && s.rooms[k].n <= n
    ensures c in Visited(s, k, i, n, frame) ==> c in s.rooms[k].slots[i..n]
    decreases n - i
  {
    if i < n {
      hide Sane, P.Offer;
      var d := s.rooms[k].slots[i];
      assert s.rooms[k].slots[i..n] == [d] + s.rooms[k].slots[i + 1..n];
      ShorterList(s, k, i, n, frame);
      VisitedHeld(WalkedOne(s, k, i, n, frame), k, i + 1, n, frame, c);
      if d != c { RestSame(s, k, i, n, frame, c); }
    }
  }

  // ---- whole ticks ----

  function AdvanceTimes(p: P.Peer, times: nat): P.Peer
    decreases times
  {
    if times == 0 then p else AdvanceTimes(P.Advance(p), times - 1)
  }

  /** That many moves add up. */
  lemma {:induction false} AdvanceSums(p: P.Peer, times: nat)
    ensures times > 0 ==>
              AdvanceTimes(p, times) == p.(x := Wrap32(p.x + times * p.vx), y := Wrap32(p.y + times * p.vy))
    ensures times == 0 ==> AdvanceTimes(p, times) == p
    decreases times
  {
    if times > 0 {
      var q := P.Advance(p);
      AdvanceSums(q, times - 1);
      WrapSum(p.x + p.vx, (times - 1) * p.vx);
      WrapSum(p.y + p.vy, (times - 1) * p.vy);
      assert p.x + p.vx + (times - 1) * p.vx == p.x + times * p.vx;
      assert p.y + p.vy + (times - 1) * p.vy == p.y + times * p.vy;
    }
  }

  /** A connection is moved once for each of its slots. */
  lemma {:induction false} MovedTimes<C>(s: State<C>, k: P.Place, i: nat, n: nat, es: seq<Entry>, c: C)
    requires Sane(s) && k in s.rooms && i <= n <= |s.rooms[k].slots| && c in s.peers
    ensures var t := Moved(s, k, i, n, es).0;
            c in t.peers && t.peers[c] == AdvanceTimes(s.peers[c], Count(s.rooms[k].slots[i..n], c))
    decreases n - i
  {
    hide Sane, Moved, P.Advance, P.Shown;
    var l := s.rooms[k].slots;
    if i == n {
      MovedEnd(s, k, n, es);
    } else {
      MovedStep(s, k, i, n, es);
      var p := P.Advance(s.peers[l[i]]);
      MovedTimes(s.(peers := s.peers[l[i] := p]), k, i + 1, n, es + [P.Shown(p)], c);
      assert l[i..n][1..] == l[i + 1..n];
    }
  }

  /** Each slot shows its owner after the moves made so far. */
  lemma {:induction false} MovedShows<C>(s: State<C>, k: P.Place, i: nat, n: nat, es: seq<Entry>)
    requires Sane(s) && k in s.rooms && i <= n <= |s.rooms[k].slots|
    ensures var r, l := Moved(s, k, i, n, es).1, s.rooms[k].slots;
            && |r| == |es| + n - i && r[..|es|] == es
            && forall j | i <= j < n ::
                 l[j] in s.peers && r[|es| + j - i] == P.Shown(AdvanceTimes(s.peers[l[j]], Count(l[i..j + 1], l[j])))
    decreases n - i
  {
    hide Sane, Moved, P.Advance, P.Shown;
    var l := s.rooms[k].slots;
    if i == n {
      MovedEnd(s, k, n, es);
    } else {
      MovedStep(s, k, i, n, es);
      var p := P.Advance(s.peers[l[i]]);
      var t, more := s.(peers := s.peers[l[i] := p]), es + [P.Shown(p)];
      MovedShows(t, k, i + 1, n, more);
      var r := Moved(t, k, i + 1, n, more).1;
      assert r[..|es|] == r[..|more|][..|es|] && r[|es|] == r[..|more|][|es|];
      forall j | i <= j < n
        ensures l[j] in s.peers && r[|es| + j - i] == P.Shown(AdvanceTimes(s.peers[l[j]], Count(l[i..j + 1], l[j])))
      {
        assert l[i..j + 1][1..] == l[i + 1..j + 1];
        if j == i { assert Count(l[i + 1..j + 1], l[j]) == 0; }
      }
    }
  }

  /** What a tick sends. */
  function FrameOf<C>(s: State<C>, k: P.Place): Bytes
    requires Sane(s) && k in s.rooms
  {
    Frame(SnapshotPayload(NextTick(s, k), Built(s, k).1))
  }

  /** Whom the loop over the members reaches at a tick. */
  function Reached<C>(s: State<C>, k: P.Place): seq<C>
    requires Sane(s) && k in s.rooms
  {
    Visited(Built(s, k).0, k, 0, s.rooms[k].n, FrameOf(s, k))
  }

  /** A tick in any state of the lists: everyone is moved once for each slot, and offered the frame as
      often as the loop finds them. */
  lemma TickTimes<C>(s: State<C>, k: P.Place, c: C)
    requires Sane(s) && k in s.rooms && c in s.peers
    ensures c in Ticked(s, k).peers && s.rooms[k].n <= |s.rooms[k].slots|
    ensures Ticked(s, k).peers[c] ==
              OfferTimes(AdvanceTimes(s.peers[c], Count(s.rooms[k].slots[..s.rooms[k].n], c)),
                         FrameOf(s, k), Count(Reached(s, k), c))
    ensures |Reached(s, k)| == s.rooms[k].n
    ensures c in Reached(s, k) <==> c in s.rooms[k].slots[..s.rooms[k].n]
    ensures Distinct(Reached(s, k)) <==> Distinct(s.rooms[k].slots[..s.rooms[k].n])
  {
    hide Sane, Moved, Walked, Visited, Frame, SnapshotPayload, P.Advance, P.Offer;
    SaneRoom(s, k);
    var n, t, u := s.rooms[k].n, WithTick(s, k, NextTick(s, k)), Built(s, k).0;
    var l := s.rooms[k].slots;
    MovedTimes(t, k, 0, n, [], c);
    assert l[0..n] == l[..n];
    WalkOffers(u, k, 0, n, FrameOf(s, k), c);
    VisitedHeld(u, k, 0, n, FrameOf(s, k), c);
    OnceIffDistinct(u, k, 0, n, FrameOf(s, k));
    if c in l[..n] {
      var j :| 0 <= j < n && l[j] == c;
      AllReached(u, k, 0, n, FrameOf(s, k), j);
    }
  }

  lemma {:induction false} OfferTimesMoves(p: P.Peer, frame: Bytes, times: nat)
    ensures var q := OfferTimes(p, frame, times);
            && q.pid == p.pid && q.x == p.x && q.y == p.y && q.vx == p.vx && q.vy == p.vy && q.lastSeq == p.lastSeq
    decreases times
  {
    hide P.O.Enqueue;
    if times > 0 { OfferTimesMoves(P.Offer(p, frame), frame, times - 1); }
  }

  /** A tick in any state, in numbers: whoever has slots is moved by their velocity that many times. */
  lemma TickMoves<C>(s: State<C>, k: P.Place, c: C)
    requires Sane(s) && k in s.rooms && c in s.peers
    ensures s.rooms[k].n <= |s.rooms[k].slots| && c in Ticked(s, k).peers
    ensures var p, q, m := s.peers[c], Ticked(s, k).peers[c], Count(s.rooms[k].slots[..s.rooms[k].n], c);
            && q.pid == p.pid && q.vx == p.vx && q.vy == p.vy && q.lastSeq == p.lastSeq
            && q.x == (if m == 0 then p.x else Wrap32(p.x + m * p.vx))
            && q.y == (if m == 0 then p.y else Wrap32(p.y + m * p.vy))
  {
    hide Sane, Ticked, P.Advance, AdvanceTimes, OfferTimes, Count, Reached;
    SaneRoom(s, k);
    var m := Count(s.rooms[k].slots[..s.rooms[k].n], c);
    TickTimes(s, k, c);
    AdvanceSums(s.peers[c], m);
    OfferTimesMoves(AdvanceTimes(s.peers[c], m), FrameOf(s, k), Count(Reached(s, k), c));
  }

  /** The snapshot of a tick in any state has the next tick number and, for each slot, its owner after the
      moves up to that slot. */
  lemma TickShows<C>(s: State<C>, k: P.Place)
    requires Sane(s) && k in s.rooms
    ensures FrameOf(s, k) == Frame(SnapshotPayload((s.rooms[k].tick + 1) % 0x1_0000_0000, Built(s, k).1))
    ensures s.rooms[k].n <= |s.rooms[k].slots| && |Built(s, k).1| == s.rooms[k].n
    ensures forall j | 0 <= j < s.rooms[k].n ::
              s.rooms[k].slots[j] in s.peers && Built(s, k).1[j] == MovedEntry(s, k, j)
  {
    hide Sane, Moved, Frame, SnapshotPayload, P.Advance, P.Shown, AdvanceTimes, Count, MovedEntry;
    SaneRoom(s, k);
    var n, l := s.rooms[k].n, s.rooms[k].slots;
    MovedShows(WithTick(s, k, NextTick(s, k)), k, 0, n, []);
    forall j | 0 <= j < n ensures l[j] in s.peers && Built(s, k).1[j] == MovedEntry(s, k, j) {
      assert l[0..j + 1] == l[..j + 1];
      MovedEntryIs(s, k, j);
    }
  }

  function MovedEntry<C(==)>(s: State<C>, k: P.Place, j: nat): Entry
    requires k in s.rooms && j < |s.rooms[k].slots| && s.rooms[k].slots[j] in s.peers
  {
    var c := s.rooms[k].slots[j];
    var p, m := s.peers[c], Count(s.rooms[k].slots[..j + 1], c);
    Entry(p.pid, Wrap32(p.x + m * p.vx), Wrap32(p.y + m * p.vy), p.lastSeq)
  }

  lemma MovedEntryIs<C>(s: State<C>, k: P.Place, j: nat)
    requires k in s.rooms && j < |s.rooms[k].slots| && s.rooms[k].slots[j] in s.peers
    ensures var c := s.rooms[k].slots[j];
            P.Shown(AdvanceTimes(s.peers[c], Count(s.rooms[k].slots[..j + 1], c))) == MovedEntry(s, k, j)
  {
    hide Count, AdvanceTimes;
    var l := s.rooms[k].slots[..j + 1];
    assert l[j] in l;
    Counted(l, l[j]);
    AdvanceSums(s.peers[l[j]], Count(l, l[j]));
  }
}
