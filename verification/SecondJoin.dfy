/** The member lists of the epoll reactor (servers/go-epoll) when connections join more than once:
    a JOIN appends without leaving the old room, and a close takes out one slot at most. */
module SecondJoin {
  import opened Wire
  import opened Lists
  import P = Peers
  import opened Framing
  import opened Sequences
  import opened Events
  import I = Inbound

  datatype Slot = Slot(place: P.Place, index: int)

  predicate Holds<C>(s: State<C>, p: Slot, c: C)
  {
    p.place in s.rooms && s.rooms[p.place].n <= |s.rooms[p.place].slots|
    && 0 <= p.index < s.rooms[p.place].n && s.rooms[p.place].slots[p.index] == c
  }

  ghost predicate Somewhere<C>(s: State<C>, c: C) { exists p :: Holds(s, p, c) }

  ghost predicate Twice<C>(s: State<C>, c: C) { exists p, q :: p != q && Holds(s, p, c) && Holds(s, q, c) }

  function Home<C>(s: State<C>, c: C): Slot
    requires c in s.peers && c in s.midx
  {
    Slot(s.peers[c].place, s.midx[c])
  }

  /** Its one slot is where its index says. */
  ghost predicate Once<C>(s: State<C>, c: C)
    requires c in s.peers && c in s.midx
  {
    Holds(s, Home(s, c), c) && forall p | Holds(s, p, c) :: p == Home(s, c)
  }

  /** What slots a connection has, by how often it has joined. */
  ghost predicate SlotsOk<C>(s: State<C>, c: C, joins: nat)
    requires c in s.peers && c in s.midx
  {
    if s.peers[c].o.closed then (if joins <= 1 then !Somewhere(s, c) else Somewhere(s, c))
    else if joins == 0 then s.peers[c].place == P.Nowhere && !Somewhere(s, c)
    else s.peers[c].place.In? && if joins == 1 then Once(s, c) else Twice(s, c)
  }

  /** Changes that leave the lists and a connection's index, room and end alone. */
  lemma SameSlots<C>(s: State<C>, t: State<C>, c: C, joins: nat)
    requires c in s.peers && c in s.midx && SlotsOk(s, c, joins)
    requires c in t.peers && c in t.midx && t.midx[c] == s.midx[c] && t.rooms.Keys == s.rooms.Keys
    requires t.peers[c].place == s.peers[c].place && t.peers[c].o.closed == s.peers[c].o.closed
    requires forall k | k in s.rooms :: t.rooms[k].n == s.rooms[k].n && t.rooms[k].slots == s.rooms[k].slots
    ensures SlotsOk(t, c, joins)
  {
    assert forall p :: Holds(t, p, c) <==> Holds(s, p, c);
  }

  // ---- a JOIN ----

  lemma AppendSlots<C>(s: State<C>, c: C, k: P.Place, pid: int, d: C)
    requires Sane(s) && c in s.peers && !s.peers[c].o.closed && k.In?
    ensures var n, t := Slot(k, RoomOf(s, k).n), Appended(s, c, k, pid);
            !Holds(s, n, d) && forall p :: Holds(t, p, d) <==> Holds(s, p, d) || (d == c && p == n)
  {
    if k in s.rooms { SaneRoom(s, k); }
  }

  lemma AppendKeeps<C>(s: State<C>, c: C, k: P.Place, pid: int, d: C, joins: nat)
    requires Sane(s) && c in s.peers && !s.peers[c].o.closed && k.In?
    requires d in s.peers && d in s.midx && SlotsOk(s, d, joins)
    ensures SlotsOk(Appended(s, c, k, pid), d, if d == c then joins + 1 else joins)
  {
    var t, n := Appended(s, c, k, pid), Slot(k, RoomOf(s, k).n);
    AppendSlots(s, c, k, pid, d);
    hide Holds, Sane;
    if d == c {
      assert Holds(t, n, d);
      if joins == 1 { assert Holds(t, Home(s, d), d) && Home(s, d) != n; }
    }
    if Twice(s, d) {
      var p, q :| p != q && Holds(s, p, d) && Holds(s, q, d);
      assert Holds(t, p, d) && Holds(t, q, d);
    }
    if Somewhere(s, d) {
      var p :| Holds(s, p, d);
      assert Holds(t, p, d);
    }
  }

  // ---- a close ----

  /** Where a slot goes when slot `gone` of its list is filled with the last one. */
  function Refilled(p: Slot, gone: Slot, last: int): Slot { if p == Slot(gone.place, last) then gone else p }

  predicate Listed<C>(s: State<C>, c: C)
    requires c in s.peers && c in s.midx
  {
    Holds(s, Home(s, c), c)
  }

  /** A close takes out at most one slot, that of the connection's own index, and fills it with the
      last one of the list. */
  lemma CloseSlots<C>(s: State<C>, c: C, d: C)
    requires Sane(s) && c in s.peers && c in s.midx && s.peers[c].place.In? && Listed(s, c)
    requires s.peers[c].place in s.rooms && RoomSane(s, s.peers[c].place)
    ensures var g, t := Home(s, c), Unlisted(s, c, s.peers[c].place);
            var last := s.rooms[g.place].n - 1;
            && (forall p | Holds(s, p, d) && p != g :: Holds(t, Refilled(p, g, last), d))
            && (forall p | Holds(t, p, d) ::
                  (p == g ==> last != g.index) && Holds(s, if p == g then Slot(g.place, last) else p, d))
            && (forall p | Holds(t, p, d) :: p != Slot(g.place, last))
            && (d in s.midx ==>
                  d in t.midx && t.midx[d] == if s.rooms[g.place].slots[last] == d then g.index else s.midx[d])
  {
  }

  lemma CloseListed<C>(s: State<C>, c: C, d: C, joins: nat)
    requires Sane(s) && c in s.peers && c in s.midx && s.peers[c].place.In? && Listed(s, c)
    requires d in s.peers && d in s.midx && SlotsOk(s, d, joins)
    requires s.peers[c].place in s.rooms && RoomSane(s, s.peers[c].place) && !s.peers[c].o.closed
    ensures var t := Unlisted(s, c, s.peers[c].place);
            if d == c then (if joins <= 1 then !Somewhere(t, d) else Somewhere(t, d)) else SlotsOk(t, d, joins)
  {
    hide Sane, RoomSane, Unlisted, Holds, Somewhere, Twice, Once;
    if d == c {
      CloseSelf(s, c, joins);
    } else {
      CloseOther(s, c, d);
      if !s.peers[d].o.closed && joins == 1 { CloseMoves(s, c, d); }
    }
  }

  lemma CloseSelf<C>(s: State<C>, c: C, joins: nat)
    requires Sane(s) && c in s.peers && c in s.midx && s.peers[c].place.In? && Listed(s, c)
    requires SlotsOk(s, c, joins) && !s.peers[c].o.closed
    requires s.peers[c].place in s.rooms && RoomSane(s, s.peers[c].place)
    ensures Somewhere(Unlisted(s, c, s.peers[c].place), c) <==> joins > 1
  {
    hide Sane, RoomSane, Unlisted, Holds;
    SaneConn(s, c);
    var t, g := Unlisted(s, c, s.peers[c].place), Home(s, c);
    var last := s.rooms[g.place].n - 1;
    CloseSlots(s, c, c);
    if joins > 1 {
      var p, q :| p != q && Holds(s, p, c) && Holds(s, q, c);
      if p != g { assert Holds(t, Refilled(p, g, last), c); } else { assert Holds(t, Refilled(q, g, last), c); }
    }
  }

  /** The slots of the others stay, up to the move, and no slot is new. */
  lemma CloseOther<C>(s: State<C>, c: C, d: C)
    requires Sane(s) && c in s.peers && c in s.midx && s.peers[c].place.In? && Listed(s, c) && d != c
    requires s.peers[c].place in s.rooms && RoomSane(s, s.peers[c].place)
    ensures Somewhere(Unlisted(s, c, s.peers[c].place), d) <==> Somewhere(s, d)
    ensures Twice(s, d) ==> Twice(Unlisted(s, c, s.peers[c].place), d)
  {
    var t, g := Unlisted(s, c, s.peers[c].place), Home(s, c);
    var last := s.rooms[g.place].n - 1;
    CloseSlots(s, c, d);
    assert !Holds(s, g, d);
    hide Sane, RoomSane, Unlisted, Holds;
    if Somewhere(s, d) {
      var p :| Holds(s, p, d);
      assert Holds(t, Refilled(p, g, last), d);
    }
    if Somewhere(t, d) {
      var p :| Holds(t, p, d);
      assert Holds(s, if p == g then Slot(g.place, last) else p, d);
    }
    if Twice(s, d) {
      var p, q :| p != q && Holds(s, p, d) && Holds(s, q, d);
      assert Holds(t, Refilled(p, g, last), d) && Holds(t, Refilled(q, g, last), d);
    }
  }

  /** A connection with one slot keeps it, wherever it went. */
  lemma CloseMoves<C>(s: State<C>, c: C, d: C)
    requires Sane(s) && c in s.peers && c in s.midx && s.peers[c].place.In? && Listed(s, c)
    requires s.peers[c].place in s.rooms && RoomSane(s, s.peers[c].place)
    requires d != c && d in s.peers && d in s.midx && Once(s, d)
    ensures d in Unlisted(s, c, s.peers[c].place).midx && Once(Unlisted(s, c, s.peers[c].place), d)
  {
    var t, g, h := Unlisted(s, c, s.peers[c].place), Home(s, c), Home(s, d);
    var last := s.rooms[g.place].n - 1;
    CloseSlots(s, c, d);
    assert Holds(s, h, d) && h != g;
    assert s.rooms[g.place].slots[last] == d <==> Holds(s, Slot(g.place, last), d);
    assert Holds(t, Refilled(h, g, last), d);
    assert Home(t, d) == Refilled(h, g, last);
  }

  /** Whatever happens to a connection without a JOIN. */
  lemma BecomeKeeps<C>(s: State<C>, c: C, q: P.Peer, d: C, joins: nat)
    requires Sane(s) && c in s.peers && Follows(q, s.peers[c])
    requires d in s.peers && d in s.midx && SlotsOk(s, d, joins)
    ensures d in Become(s, c, q).midx && SlotsOk(Become(s, c, q), d, joins)
  {
    var p, r := s.peers[c], Become(s, c, q);
    SaneConn(s, c);
    if p.place.In? && q.o.closed {
      if Listed(s, c) {
        CloseListed(s, c, d, joins);
        PeersOnly(Unlisted(s, c, p.place), r, d);
      } else {
        NotListed(s, c);
        PeersOnly(s, r, d);
      }
    } else {
      PeersOnly(s, r, d);
    }
  }

  lemma NotListed<C>(s: State<C>, c: C)
    requires Sane(s) && c in s.peers && c in s.midx && s.peers[c].place in s.rooms && RoomSane(s, s.peers[c].place)
    requires s.midx[c] >= 0 && !Listed(s, c)
    ensures Unlisted(s, c, s.peers[c].place) == s
  {
  }

  lemma PeersOnly<C>(s: State<C>, t: State<C>, d: C)
    requires t.rooms == s.rooms
    ensures forall p :: Holds(t, p, d) <==> Holds(s, p, d)
    ensures Somewhere(t, d) == Somewhere(s, d) && Twice(t, d) == Twice(s, d)
  {
    assert forall p :: Holds(t, p, d) <==> Holds(s, p, d);
  }

  // ---- all connections ----

  ghost predicate AllOk<C>(s: State<C>, joins: map<C, nat>)
  {
    joins.Keys == s.peers.Keys == s.midx.Keys && forall c | c in s.peers :: SlotsOk(s, c, joins[c])
  }

  lemma BecomeAll<C>(s: State<C>, c: C, q: P.Peer, joins: map<C, nat>)
    requires Sane(s) && c in s.peers && Follows(q, s.peers[c]) && AllOk(s, joins)
    ensures AllOk(Become(s, c, q), joins)
  {
    hide SlotsOk, Follows;
    var r := Become(s, c, q);
    SaneConn(r, c);
    forall d | d in r.peers ensures SlotsOk(r, d, joins[d]) { BecomeKeeps(s, c, q, d, joins[d]); }
  }

  lemma OfferedAll<C>(s: State<C>, c: C, frame: Bytes, joins: map<C, nat>)
    requires Sane(s) && c in s.peers && AllOk(s, joins)
    ensures AllOk(Offered(s, c, frame), joins)
  {
    hide AllOk, P.Offer;
    SaneConn(s, c);
    OfferFollows(s.peers[c], frame);
    BecomeAll(s, c, P.Offer(s.peers[c], frame), joins);
  }

  lemma AppendAll<C>(s: State<C>, c: C, k: P.Place, pid: int, joins: map<C, nat>)
    requires Sane(s) && c in s.peers && !s.peers[c].o.closed && k.In? && AllOk(s, joins)
    ensures c in joins && AllOk(Appended(s, c, k, pid), joins[c := joins[c] + 1])
  {
    hide SlotsOk;
    var r := Appended(s, c, k, pid);
    SaneConn(r, c);
    forall d | d in r.peers ensures SlotsOk(r, d, joins[c := joins[c] + 1][d]) {
      AppendKeeps(s, c, k, pid, d, joins[d]);
    }
  }

  lemma HandledAll<C>(s: State<C>, c: C, payload: Bytes, pid: int, joins: map<C, nat>)
    requires Sane(s) && c in s.peers && !s.peers[c].o.closed && AllOk(s, joins)
    ensures c in joins && AllOk(Handled(s, c, payload, pid), joins[c := joins[c] + if P.IsJoin(payload) then 1 else 0])
  {
    hide SlotsOk, P.IsJoin, Appended, Get32, JoinedPayload, Frame;
    if P.IsJoin(payload) {
      JoinIs(payload);
      var room := Get32(payload, 1);
      AppendAll(s, c, P.In(room), pid, joins);
      OfferedAll(Appended(s, c, P.In(room), pid), c, Frame(JoinedPayload(pid, room)), joins[c := joins[c] + 1]);
    } else {
      SaneConn(s, c);
      HandleFollows(s.peers[c], payload, pid);
      BecomeAll(s, c, P.Handle(s.peers[c], payload, pid), joins);
      assert joins[c := joins[c] + 0] == joins;
    }
  }

  lemma JoinIs(payload: Bytes)
    requires P.IsJoin(payload)
    ensures |payload| >= 5
  {
  }

  lemma HandleFollows(p: P.Peer, payload: Bytes, pid: int)
    requires !P.IsJoin(payload) && (p.place.In? ==> !p.o.closed)
    requires !p.o.closed
    ensures Follows(P.Handle(p, payload, pid), p)
  {
  }

  /** As long as each payload found the connection open. */
  lemma {:induction false} DispatchedAll<C>(s: State<C>, c: C, payloads: seq<Bytes>, pids: seq<int>, joins: map<C, nat>)
    requires Sane(s) && c in s.peers && AllOk(s, joins)
    requires forall m | 0 <= m < |payloads| :: !Dispatched(s, c, payloads[..m], pids).peers[c].o.closed
    ensures c in joins && AllOk(Dispatched(s, c, payloads, pids), joins[c := joins[c] + JoinsIn(payloads)])
  {
    hide AllOk, Sane, Dispatched, JoinsIn, Handled, P.IsJoin;
    AllKnown(s, joins);
    if payloads == [] {
      DispatchedNone(s, c, pids);
      assert joins[c := joins[c] + 0] == joins;
    } else {
      var m := |payloads| - 1;
      var front, last := payloads[..m], payloads[m];
      forall j | 0 <= j < m ensures front[..j] == payloads[..j] { }
      DispatchedAll(s, c, front, pids, joins);
      DispatchedMore(s, c, front, last, pids);
      assert payloads == front + [last];
      var more := joins[c := joins[c] + JoinsIn(front)];
      HandledAll(Dispatched(s, c, front, pids), c, last, PidAt(pids, JoinsIn(front)), more);
      TwoUpdates(joins, c, joins[c] + JoinsIn(front), joins[c] + JoinsIn(payloads));
    }
  }

  lemma TwoUpdates<C>(m: map<C, nat>, c: C, x: nat, y: nat)
    ensures m[c := x][c := y] == m[c := y]
  {
  }

  lemma AllKnown<C>(s: State<C>, joins: map<C, nat>)
    requires AllOk(s, joins)
    ensures joins.Keys == s.peers.Keys == s.midx.Keys
  {
  }

  /** All but the last dispatched payload were accepted by the handler. */
  lemma {:induction false} FeedAccepts(log: seq<Bytes>, b: Bytes, kills: Verdict)
    ensures log <= Feed(log, b, kills).log
    ensures forall m | |log| < m < |Feed(log, b, kills).log| :: !kills(Feed(log, b, kills).log[..m])
    decreases |b|
  {
    if |b| >= 4 {
      var n := FrameLen(b);
      if !BadLen(n) && |b| >= 4 + n {
        var log' := log + [b[4..4 + n]];
        if !kills(log') {
          FeedAccepts(log', b[4 + n..], kills);
          assert Feed(log', b[4 + n..], kills).log[..|log'|] == log';
        }
      }
    }
  }

  lemma ReceivedAll<C>(s: State<C>, c: C, b: Bytes, pids: seq<int>, joins: map<C, nat>)
    requires Sane(s) && c in s.peers && !s.peers[c].o.closed && AllOk(s, joins)
    ensures var i := Feed([], b, Rejects(s, c, pids));
            c in joins && AllOk(Received(s, c, i, pids), joins[c := joins[c] + JoinsIn(i.log)])
  {
    hide AllOk, Sane, Feed, Dispatched, JoinsIn, Rejects;
    var kills := Rejects(s, c, pids);
    var i := Feed([], b, kills);
    FeedAccepts([], b, kills);
    DispatchedNone(s, c, pids);
    forall m | 0 <= m < |i.log| ensures !Dispatched(s, c, i.log[..m], pids).peers[c].o.closed {
      RejectsMeans(s, c, i.log[..m], pids);
      if m == 0 { assert i.log[..0] == []; } else { assert !kills(i.log[..m]); }
    }
    DispatchedAll(s, c, i.log, pids, joins);
    var t := Dispatched(s, c, i.log, pids);
    if i.closed { HungAll(t, c, joins[c := joins[c] + JoinsIn(i.log)]); }
  }

  lemma RejectsMeans<C>(s: State<C>, c: C, log: seq<Bytes>, pids: seq<int>)
    requires Sane(s) && c in s.peers
    ensures Rejects(s, c, pids)(log) == Dispatched(s, c, log, pids).peers[c].o.closed
  {
    hide Sane, Dispatched;
  }

  lemma HungAll<C>(s: State<C>, c: C, joins: map<C, nat>)
    requires Sane(s) && c in s.peers && AllOk(s, joins)
    ensures AllOk(Hung(s, c), joins)
  {
    hide AllOk;
    SaneConn(s, c);
    BecomeAll(s, c, P.Closed(s.peers[c]), joins);
  }

  lemma WritableAll<C>(s: State<C>, c: C, joins: map<C, nat>)
    requires Sane(s) && c in s.peers && AllOk(s, joins)
    ensures AllOk(Lists.Writable(s, c), joins)
  {
    hide AllOk, P.Flushed;
    SaneConn(s, c);
    if !s.peers[c].o.closed {
      FlushFollows(s.peers[c]);
      BecomeAll(s, c, P.Flushed(s.peers[c]), joins);
    }
  }

  lemma FlushFollows(p: P.Peer)
    requires !p.o.closed
    ensures Follows(P.Flushed(p), p)
  {
    hide P.O.Flush;
  }

  lemma SameAll<C>(s: State<C>, t: State<C>, joins: map<C, nat>)
    requires AllOk(s, joins) && t.peers.Keys == s.peers.Keys && t.midx == s.midx && t.rooms.Keys == s.rooms.Keys
    requires forall c | c in s.peers ::
               t.peers[c].place == s.peers[c].place && t.peers[c].o.closed == s.peers[c].o.closed
    requires forall k | k in s.rooms :: t.rooms[k].n == s.rooms[k].n && t.rooms[k].slots == s.rooms[k].slots
    ensures AllOk(t, joins)
  {
    hide SlotsOk;
    forall c | c in t.peers ensures SlotsOk(t, c, joins[c]) { SameSlots(s, t, c, joins[c]); }
  }

  /** Moving the players touches neither their places nor their queues. */
  lemma {:induction false} MovedSame<C>(s: State<C>, k: P.Place, i: nat, n: nat, es: seq<Entry>)
    requires Sane(s) && k in s.rooms && n <= |s.rooms[k].slots|
    ensures var t := Lists.Moved(s, k, i, n, es).0;
            forall c | c in s.peers :: t.peers[c].place == s.peers[c].place && t.peers[c].o == s.peers[c].o
    decreases n - i
  {
    if i < n {
      hide Sane;
      MovedStep(s, k, i, n, es);
      var c := s.rooms[k].slots[i];
      var p := P.Advance(s.peers[c]);
      MovedSame(s.(peers := s.peers[c := p]), k, i + 1, n, es + [P.Shown(p)]);
    }
  }

  lemma {:induction false} WalkedAll<C>(s: State<C>, k: P.Place, i: nat, n: nat, frame: Bytes, joins: map<C, nat>)
    requires Sane(s) && k in s.rooms && n <= |s.rooms[k].slots| && AllOk(s, joins)
    ensures AllOk(Walked(s, k, i, n, frame), joins)
    decreases n - i
  {
    hide Sane, AllOk, Offered, Walked;
    if i >= n {
      WalkedPast(s, k, i, n, frame);
    } else {
      WalkedStep(s, k, i, n, frame);
      OfferedAll(s, s.rooms[k].slots[i], frame, joins);
      WalkedAll(Offered(s, s.rooms[k].slots[i], frame), k, i + 1, n, frame, joins);
    }
  }

  lemma TickedKeeps<C>(s: State<C>, k: P.Place, joins: map<C, nat>)
    requires Sane(s) && k in s.rooms && AllOk(s, joins)
    ensures AllOk(Ticked(s, k), joins)
  {
    if s.rooms[k].n > 0 {
      hide Sane, AllOk, Walked, Frame, SnapshotPayload;
      SaneRoom(s, k);
      BuiltAll(s, k, joins);
      WalkedAll(Built(s, k).0, k, 0, s.rooms[k].n, Frame(SnapshotPayload(NextTick(s, k), Built(s, k).1)), joins);
    }
  }

  lemma BuiltAll<C>(s: State<C>, k: P.Place, joins: map<C, nat>)
    requires Sane(s) && k in s.rooms && AllOk(s, joins)
    ensures AllOk(Built(s, k).0, joins)
  {
    hide Sane, AllOk, Lists.Moved;
    SaneRoom(s, k);
    WithTickIs(s, k, NextTick(s, k));
    MovedSame(WithTick(s, k, NextTick(s, k)), k, 0, s.rooms[k].n, []);
    SameAll(s, Built(s, k).0, joins);
  }

  lemma {:induction false} TickedAllKeeps<C>(s: State<C>, order: seq<P.Place>, joins: map<C, nat>)
    requires Sane(s) && (forall k | k in order :: k in s.rooms) && AllOk(s, joins)
    ensures AllOk(TickedAll(s, order), joins)
  {
    if order != [] {
      hide Sane, AllOk, Ticked;
      var m := |order| - 1;
      TickedAllKeeps(s, order[..m], joins);
      TickedKeeps(TickedAll(s, order[..m]), order[m], joins);
    }
  }

  lemma AcceptedAll<C>(s: State<C>, c: C, script: seq<P.O.WriteResult>, joins: map<C, nat>)
    requires Sane(s) && c !in s.peers && AllOk(s, joins)
    ensures AllOk(Lists.Accepted(s, c, script), joins[c := 0])
  {
    var t := Lists.Accepted(s, c, script);
    assert forall p, d :: Holds(t, p, d) <==> Holds(s, p, d);
    forall d | d in t.peers ensures SlotsOk(t, d, joins[c := 0][d]) {
      if d == c {
        NotHeld(s, c);
      } else {
        assert SlotsOk(s, d, joins[d]);
        PeersOnly(s, t, d);
      }
    }
  }

  lemma NotHeld<C>(s: State<C>, c: C)
    requires Sane(s) && c !in s.peers
    ensures !Somewhere(s, c)
  {
    forall p ensures !Holds(s, p, c) {
      if p.place in s.rooms { SaneRoom(s, p.place); }
    }
  }

  // ---- runs ----

  lemma ReadAll<C>(w: World<C>, c: C, pids: seq<int>)
    requires Sane(w.s) && c in w.s.peers && c in w.bufs && c in w.joins && !w.s.peers[c].o.closed && AllOk(w.s, w.joins)
    ensures AllOk(Read(w, c, pids).s, Read(w, c, pids).joins)
  {
    hide Sane, AllOk, Received, Hung, Feed, I.Drain, Rejects, JoinsIn;
    if I.Drain(w.bufs[c].input).lost {
      HungAll(w.s, c, w.joins);
    } else {
      ReceivedAll(w.s, c, w.bufs[c].rbuf + I.Drain(w.bufs[c].input).data, pids, w.joins);
    }
  }

  lemma StepAll<C>(w: World<C>, e: Event, names: seq<C>, order: seq<P.Place>)
    requires Ok(w, names) && (e.Accepting? ==> w.n < |names|) && (e.Timer? ==> Enumerates(order, w.s))
    requires Distinct(names) && AllOk(w.s, w.joins)
    ensures AllOk(Step(w, e, names, order).s, Step(w, e, names, order).joins)
  {
    hide Sane, AllOk, Ok, Read, Hung, Lists.Writable, TickedAll, Accepted;
    OkMeans(w, names);
    match e
    case Accepting(script, _) => AcceptedAll(w.s, names[w.n], script, w.joins);
    case Timer => TickedAllKeeps(w.s, order, w.joins);
    case Readable(i, pids) => if IsOpen(w, names, i) { ReadAll(w, names[i], pids); }
    case Writable(i) => if IsOpen(w, names, i) { WritableAll(w.s, names[i], w.joins); }
    case Hangup(i) => if IsOpen(w, names, i) { HungAll(w.s, names[i], w.joins); }
  }

  lemma {:induction false} RunAll<C>(es: seq<Event>, names: seq<C>, orders: seq<seq<P.Place>>)
    requires Distinct(names) && Chosen(es, names, orders)
    ensures AllOk(Run(es, names, orders).s, Run(es, names, orders).joins)
    decreases |es|
  {
    hide Step, AllOk, Enumerates, Ok;
    if es == [] {
      NoneOk<C>();
    } else {
      var m := |es| - 1;
      RunAll(es[..m], names, orders[..m]);
      StepAll(Run(es[..m], names, orders[..m]), es[m], names, orders[m]);
    }
  }

  lemma NoneOk<C>()
    ensures AllOk<C>(State(map[], map[], map[]), map[])
  {
  }

  /** In every run, with JOINs, closes and ticks as they come: a closed connection is still in a member
      list exactly when it has joined at least twice. An open one is in a list exactly when it has
      joined. */
  lemma ClosedIsListed<C>(es: seq<Event>, names: seq<C>, orders: seq<seq<P.Place>>, c: C)
    requires Distinct(names) && Chosen(es, names, orders) && c in Run(es, names, orders).s.peers
    ensures var w := Run(es, names, orders);
            && c in w.joins
            && (w.s.peers[c].o.closed ==> (Somewhere(w.s, c) <==> w.joins[c] >= 2))
            && (!w.s.peers[c].o.closed ==> (Somewhere(w.s, c) <==> w.joins[c] >= 1))
  {
    hide Run, Chosen, Holds;
    RunAll(es, names, orders);
    var w := Run(es, names, orders);
    if !w.s.peers[c].o.closed && w.joins[c] == 1 { assert Holds(w.s, Home(w.s, c), c); }
  }
}
