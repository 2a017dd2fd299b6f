/** A worker of the epoll reactor (servers/go-epoll) as a value: its rooms with their member lists,
    and what it keeps of each connection. Whatever JOINs have done to the lists, every event is a
    function of this. Connections are named by values of any type. */
module Lists {
  import opened Wire
  import P = Peers
  import O = Outbound
  import opened Framing

  /** A member list: the backing array of the slice, the slice's length, and the room's tick.
      Shrinking the slice leaves the slots behind it as they are. */
  datatype Members<C> = Members(slots: seq<C>, n: nat, tick: int)

  datatype State<C> = State(rooms: map<P.Place, Members<C>>, peers: map<C, P.Peer>, midx: map<C, int>)

  predicate RoomSane<C>(s: State<C>, k: P.Place)
    requires k in s.rooms
  {
    && k.In? && s.rooms[k].n <= |s.rooms[k].slots|
    && forall i | 0 <= i < |s.rooms[k].slots| :: s.rooms[k].slots[i] in s.peers
  }

  predicate ConnSane<C>(s: State<C>, c: C)
    requires c in s.peers && s.midx.Keys == s.peers.Keys
  {
    && s.midx[c] >= 0
    && (s.peers[c].place.In? ==> !s.peers[c].o.closed && s.peers[c].place in s.rooms)
  }

  /** What holds in every state, even when second JOINs have spoiled the lists. */
  predicate Sane<C>(s: State<C>)
  {
    && s.midx.Keys == s.peers.Keys
    && (forall k | k in s.rooms :: RoomSane(s, k))
    && (forall c | c in s.peers :: ConnSane(s, c))
  }

  lemma SaneConn<C>(s: State<C>, c: C)
    requires Sane(s) && c in s.peers
    ensures c in s.midx && s.midx[c] >= 0 && s.midx.Keys == s.peers.Keys
    ensures s.peers[c].place.In? ==>
              s.peers[c].place in s.rooms && RoomSane(s, s.peers[c].place) && !s.peers[c].o.closed
  {
    assert ConnSane(s, c);
  }

  lemma SaneRoom<C>(s: State<C>, k: P.Place)
    requires Sane(s) && k in s.rooms
    ensures RoomSane(s, k)
  {
  }

  // ---- one connection ----

  /** Swap-remove, if the connection is where its index says. */
  function Unlisted<C>(s: State<C>, c: C, k: P.Place): (r: State<C>)
    requires k in s.rooms && RoomSane(s, k) && c in s.midx && s.midx[c] >= 0
    ensures Sane(s) ==> Sane(r)
    ensures r.peers == s.peers && r.rooms.Keys == s.rooms.Keys
    ensures forall j | j in s.rooms :: |r.rooms[j].slots| == |s.rooms[j].slots|
  {
    var l, m := s.rooms[k], s.midx[c];
    if m < l.n && l.slots[m] == c then
      var e := l.slots[l.n - 1];
      s.(rooms := s.rooms[k := l.(slots := l.slots[m := e], n := l.n - 1)], midx := s.midx[e := m])
    else s
  }

  /** `q` is what became of `p` without a JOIN: where it was, or closed and nowhere. */
  predicate Follows(q: P.Peer, p: P.Peer)
  {
    q.place == (if q.o.closed then P.Nowhere else p.place) && (p.o.closed ==> q.o.closed)
  }

  /** A connection changes; if it is closed now it leaves its room. */
  function Become<C>(s: State<C>, c: C, q: P.Peer): (r: State<C>)
    requires Sane(s) && c in s.peers && Follows(q, s.peers[c])
    ensures Sane(r) && r.rooms.Keys == s.rooms.Keys && r.peers == s.peers[c := q]
    ensures forall j | j in s.rooms :: |r.rooms[j].slots| == |s.rooms[j].slots|
  {
    var p := s.peers[c];
    var t := if p.place.In? && q.o.closed then Unlisted(s, c, p.place) else s;
    t.(peers := t.peers[c := q])
  }

  lemma OfferFollows(p: P.Peer, frame: Bytes)
    requires p.place.In? ==> !p.o.closed
    ensures Follows(P.Offer(p, frame), p)
  {
  }

  function Offered<C>(s: State<C>, c: C, frame: Bytes): (r: State<C>)
    requires Sane(s) && c in s.peers
    ensures Sane(r) && r.rooms.Keys == s.rooms.Keys && r.peers == s.peers[c := P.Offer(s.peers[c], frame)]
    ensures forall j | j in s.rooms :: |r.rooms[j].slots| == |s.rooms[j].slots|
  {
    OfferFollows(s.peers[c], frame);
    Become(s, c, P.Offer(s.peers[c], frame))
  }

  /** Enqueue in steps: the queue takes what it can, and on a hard error the connection is closed. */
  lemma OfferedSteps<C>(s: State<C>, c: C, frame: Bytes, q: P.Peer, failed: bool)
    requires Sane(s) && c in s.peers && q == s.peers[c].(o := q.o) && q.o.closed == s.peers[c].o.closed
    requires O.Enqueue(s.peers[c].o, frame) == if failed then q.o.(closed := true) else q.o
    ensures var t := s.(peers := s.peers[c := q]);
            Sane(t) && Offered(s, c, frame) == if failed then Hung(t, c) else t
  {
    hide O.Enqueue;
    var t := s.(peers := s.peers[c := q]);
    SaneConn(s, c);
    SaneWith(s, c, q);
    BecomeFrom(s, c, q, P.Offer(s.peers[c], frame), failed);
  }

  lemma SaneWith<C>(s: State<C>, c: C, q: P.Peer)
    requires Sane(s) && c in s.peers && q.place == s.peers[c].place && q.o.closed == s.peers[c].o.closed
    ensures Sane(s.(peers := s.peers[c := q]))
  {
    var t := s.(peers := s.peers[c := q]);
    forall k | k in t.rooms ensures RoomSane(t, k) { SaneRoom(s, k); }
    forall d | d in t.peers ensures ConnSane(t, d) { SaneConn(s, d); }
  }

  /** A change in two steps: first the queue, then the close. */
  lemma BecomeFrom<C>(s: State<C>, c: C, q: P.Peer, to: P.Peer, closes: bool)
    requires Sane(s) && c in s.peers && Follows(to, s.peers[c])
    requires q.place == s.peers[c].place && q.o.closed == s.peers[c].o.closed
    requires to == if closes then P.Closed(q) else q
    ensures var t := s.(peers := s.peers[c := q]);
            Sane(t) && Become(s, c, to) == if closes then Hung(t, c) else t
  {
    SaneWith(s, c, q);
    SaneConn(s, c);
    var t := s.(peers := s.peers[c := q]);
    assert s.peers[c := q][c := to] == s.peers[c := to];
    if closes && q.place.In? {
      UnlistedSame(s, t, c, q.place);
    }
  }

  /** Swap-remove does not look at what a connection is. */
  lemma UnlistedSame<C>(s: State<C>, t: State<C>, c: C, k: P.Place)
    requires k in s.rooms && RoomSane(s, k) && c in s.midx && s.midx[c] >= 0
    requires t.rooms == s.rooms && t.midx == s.midx && t.peers.Keys == s.peers.Keys
    ensures RoomSane(t, k) && Unlisted(t, c, k) == Unlisted(s, c, k).(peers := t.peers)
  {
  }

  function Writable<C>(s: State<C>, c: C): (r: State<C>)
    requires Sane(s) && c in s.peers
    ensures Sane(r) && r.peers.Keys == s.peers.Keys
  {
    if s.peers[c].o.closed then s
    else Become(s, c, P.Flushed(s.peers[c]))
  }

  lemma WritableSteps<C>(s: State<C>, c: C, q: P.Peer, failed: bool)
    requires Sane(s) && c in s.peers && !s.peers[c].o.closed
    requires q == s.peers[c].(o := q.o) && q.o.closed == s.peers[c].o.closed
    requires O.Flush(s.peers[c].o) == if failed then q.o.(closed := true) else q.o
    ensures var t := s.(peers := s.peers[c := q]);
            Sane(t) && Writable(s, c) == if failed then Hung(t, c) else t
  {
    hide O.Flush;
    SaneConn(s, c);
    SaneWith(s, c, q);
    BecomeFrom(s, c, q, P.Flushed(s.peers[c]), failed);
  }

  function Hung<C>(s: State<C>, c: C): (r: State<C>)
    requires Sane(s) && c in s.peers
    ensures Sane(r) && r.peers.Keys == s.peers.Keys
  {
    Become(s, c, P.Closed(s.peers[c]))
  }

  /** Swap-remove in steps: the slot is overwritten, the index corrected, the slice shortened. */
  lemma UnlistedSteps<C>(s: State<C>, c: C, k: P.Place)
    requires k in s.rooms && RoomSane(s, k) && c in s.midx && s.midx[c] >= 0
    ensures var l, m := s.rooms[k], s.midx[c];
            if m < l.n && l.slots[m] == c then
              var e, slots := l.slots[l.n - 1], l.slots[m := l.slots[l.n - 1]];
              var t := s.(rooms := s.rooms[k := l.(slots := slots)]);
              var u := t.(midx := t.midx[e := m]);
              Unlisted(s, c, k) == u.(rooms := u.rooms[k := Members(slots, l.n - 1, l.tick)])
            else Unlisted(s, c, k) == s
  {
    var l, m := s.rooms[k], s.midx[c];
    if m < l.n && l.slots[m] == c {
      var slots := l.slots[m := l.slots[l.n - 1]];
      var w := Members(slots, l.n - 1, l.tick);
      assert s.rooms[k := l.(slots := slots)][k := w] == s.rooms[k := w];
    }
  }

  /** Closing in steps: the queue is marked, the list is told, and the room forgotten. */
  lemma HungSteps<C>(s: State<C>, c: C, q: P.Peer)
    requires Sane(s) && c in s.peers && s.peers[c].place.In?
    requires q == s.peers[c].(o := s.peers[c].o.(closed := true))
    ensures var k, t := s.peers[c].place, s.(peers := s.peers[c := q]);
            && k in t.rooms && RoomSane(t, k) && c in t.midx && t.midx[c] >= 0
            && var u := Unlisted(t, c, k);
               u.(peers := u.peers[c := q.(place := P.Nowhere)]) == Hung(s, c)
  {
    hide Sane, Unlisted, RoomSane;
    SaneConn(s, c);
    UnlistedSame(s, s.(peers := s.peers[c := q]), c, s.peers[c].place);
    assert s.peers[c := q][c := q.(place := P.Nowhere)] == s.peers[c := q.(place := P.Nowhere)];
  }

  lemma HungNowhere<C>(s: State<C>, c: C)
    requires Sane(s) && c in s.peers && s.peers[c].place.Nowhere?
    ensures Hung(s, c) == s.(peers := s.peers[c := s.peers[c].(o := s.peers[c].o.(closed := true))])
  {
  }

  lemma HungAgain<C>(s: State<C>, c: C)
    requires Sane(s) && c in s.peers && s.peers[c].o.closed
    ensures Hung(s, c) == s
  {
    assert ConnSane(s, c);
    assert s.peers[c := s.peers[c]] == s.peers;
  }

  function RoomOf<C>(s: State<C>, k: P.Place): Members<C> { if k in s.rooms then s.rooms[k] else Members([], 0, 0) }

  /** The connection goes to the end of the list; a room it was in before is not told. */
  function Appended<C>(s: State<C>, c: C, k: P.Place, pid: int): (r: State<C>)
    requires Sane(s) && c in s.peers && !s.peers[c].o.closed && k.In?
    ensures Sane(r) && r.peers.Keys == s.peers.Keys
  {
    var l := RoomOf(s, k);
    State(s.rooms[k := l.(slots := l.slots[..l.n] + [c], n := l.n + 1)],
          s.peers[c := s.peers[c].(pid := pid, place := k)],
          s.midx[c := l.n])
  }

  /** A room that nobody asked for before is empty. */
  function WithRoom<C>(s: State<C>, k: P.Place): (r: State<C>)
    requires Sane(s) && k.In?
    ensures Sane(r) && k in r.rooms && r.rooms[k] == RoomOf(s, k) && r.peers == s.peers && r.midx == s.midx
  {
    if k in s.rooms then s else s.(rooms := s.rooms[k := Members([], 0, 0)])
  }

  lemma WithRoomIs<C>(s: State<C>, k: P.Place)
    requires Sane(s) && k.In?
    ensures WithRoom(s, k) == if k in s.rooms then s else s.(rooms := s.rooms[k := Members([], 0, 0)])
  {
  }

  /** A JOIN of a new room makes the room first. */
  lemma AppendedFirst<C>(s: State<C>, c: C, k: P.Place, pid: int)
    requires Sane(s) && c in s.peers && !s.peers[c].o.closed && k.In?
    ensures Appended(WithRoom(s, k), c, k, pid) == Appended(s, c, k, pid)
  {
    if k !in s.rooms {
      assert RoomOf(WithRoom(s, k), k) == RoomOf(s, k);
      var w := Members(RoomOf(s, k).slots[..0] + [c], 1, 0);
      assert s.rooms[k := Members([], 0, 0)][k := w] == s.rooms[k := w];
    }
  }

  /** A JOIN in steps: the player, its index, the list. */
  lemma AppendedTo<C>(s: State<C>, c: C, k: P.Place, pid: int)
    requires Sane(s) && c in s.peers && !s.peers[c].o.closed && k.In? && k in s.rooms
    ensures var l := s.rooms[k];
            && l.n <= |l.slots|
            && Appended(s, c, k, pid) ==
                 State(s.rooms[k := Members(l.slots[..l.n] + [c], l.n + 1, l.tick)],
                       s.peers[c := s.peers[c].(pid := pid, place := k)],
                       s.midx[c := l.n])
  {
    SaneRoom(s, k);
  }

  /** A new connection. */
  function Accepted<C>(s: State<C>, c: C, script: seq<O.WriteResult>): (r: State<C>)
    requires Sane(s) && c !in s.peers
    ensures Sane(r)
  {
    s.(peers := s.peers[c := P.Accepted(script)], midx := s.midx[c := 0])
  }

  /** One dispatched payload. */
  function Handled<C>(s: State<C>, c: C, payload: Bytes, pid: int): (r: State<C>)
    requires Sane(s) && c in s.peers
    ensures Sane(r) && r.peers.Keys == s.peers.Keys
  {
    if s.peers[c].o.closed then s
    else if P.IsJoin(payload) then
      var room := Get32(payload, 1);
      Offered(Appended(s, c, P.In(room), pid), c, Frame(JoinedPayload(pid, room)))
    else Become(s, c, P.Handle(s.peers[c], payload, pid))
  }

  lemma HandledIs<C>(s: State<C>, c: C, payload: Bytes, pid: int)
    requires Sane(s) && c in s.peers && !s.peers[c].o.closed && |payload| > 0
    ensures Handled(s, c, payload, pid) ==
              if payload[0] == MSG_JOIN && |payload| >= 5 then
                var room := Get32(payload, 1);
                Offered(Appended(s, c, P.In(room), pid), c, Frame(JoinedPayload(pid, room)))
              else if payload[0] == MSG_MOVE && |payload| >= 9 then
                var p := s.peers[c].(lastSeq := Get32(payload, 1),
                                     vx := AsI16(Get16(payload, 5)), vy := AsI16(Get16(payload, 7)));
                s.(peers := s.peers[c := p])
              else s
  {
    hide Get32, Get16, Offered, Appended;
    SaneConn(s, c);
    assert s.peers[c := s.peers[c]] == s.peers;
  }

  /** Whatever the lists are, the connection becomes what `Peers` says, and all others stay as they are. */
  lemma HandledPeer<C>(s: State<C>, c: C, payload: Bytes, pid: int)
    requires Sane(s) && c in s.peers && !s.peers[c].o.closed
    ensures Handled(s, c, payload, pid).peers == s.peers[c := P.Handle(s.peers[c], payload, pid)]
  {
    hide O.Enqueue, Frame, JoinedPayload;
    if P.IsJoin(payload) {
      var p, room := s.peers[c], Get32(payload, 1);
      var q := P.Offer(p.(pid := pid, place := P.In(room)), Frame(JoinedPayload(pid, room)));
      assert s.peers[c := p.(pid := pid, place := P.In(room))][c := q] == s.peers[c := q];
    }
  }

  // ---- one readiness event ----

  function JoinsIn(payloads: seq<Bytes>): nat
  {
    if payloads == [] then 0
    else JoinsIn(payloads[..|payloads| - 1]) + if P.IsJoin(payloads[|payloads| - 1]) then 1 else 0
  }

  /** The player id for the next JOIN, from those the shared counter gives out. */
  function PidAt(pids: seq<int>, j: nat): int { if j < |pids| then pids[j] else 0 }

  /** Payloads dispatched one after the other. */
  function Dispatched<C>(s: State<C>, c: C, payloads: seq<Bytes>, pids: seq<int>): (r: State<C>)
    requires Sane(s) && c in s.peers
    ensures Sane(r) && r.peers.Keys == s.peers.Keys
  {
    if payloads == [] then s
    else
      var m := |payloads| - 1;
      Handled(Dispatched(s, c, payloads[..m], pids), c, payloads[m], PidAt(pids, JoinsIn(payloads[..m])))
  }

  lemma DispatchedMore<C>(s: State<C>, c: C, payloads: seq<Bytes>, payload: Bytes, pids: seq<int>)
    requires Sane(s) && c in s.peers
    ensures JoinsIn(payloads + [payload]) == JoinsIn(payloads) + if P.IsJoin(payload) then 1 else 0
    ensures c in Dispatched(s, c, payloads, pids).peers
    ensures Dispatched(s, c, payloads + [payload], pids) ==
              Handled(Dispatched(s, c, payloads, pids), c, payload, PidAt(pids, JoinsIn(payloads)))
  {
    hide Handled, P.IsJoin;
    assert (payloads + [payload])[..|payloads|] == payloads;
  }

  lemma DispatchedNone<C>(s: State<C>, c: C, pids: seq<int>)
    requires Sane(s) && c in s.peers
    ensures Dispatched(s, c, [], pids) == s && JoinsIn([]) == 0
  {
  }

  /** A readiness event with `data` read: what the parse of buffer and data dispatches, and the close
      that a bad length asks for. */
  function Received<C>(s: State<C>, c: C, i: Inbox, pids: seq<int>): (r: State<C>)
    requires Sane(s) && c in s.peers
    ensures Sane(r) && r.peers.Keys == s.peers.Keys
  {
    var t := Dispatched(s, c, i.log, pids);
    if i.closed then Hung(t, c) else t
  }

  /** A handler rejects a frame by closing the connection. */
  function Rejects<C>(s: State<C>, c: C, pids: seq<int>): Verdict
  {
    (payloads: seq<Bytes>) => Sane(s) && c in s.peers && Dispatched(s, c, payloads, pids).peers[c].o.closed
  }

  // ---- a tick ----

  /** Slots `i` to `n` of a room are moved, and shown in a snapshot. */
  function Moved<C>(s: State<C>, k: P.Place, i: nat, n: nat, es: seq<Entry>): (r: (State<C>, seq<Entry>))
    requires Sane(s) && k in s.rooms && n <= |s.rooms[k].slots|
    ensures Sane(r.0) && r.0.rooms == s.rooms && r.0.midx == s.midx && r.0.peers.Keys == s.peers.Keys
    decreases n - i
  {
    if i >= n then (s, es)
    else
      var c := s.rooms[k].slots[i];
      var p := P.Advance(s.peers[c]);
      Moved(s.(peers := s.peers[c := p]), k, i + 1, n, es + [P.Shown(p)])
  }

  lemma MovedStep<C>(s: State<C>, k: P.Place, i: nat, n: nat, es: seq<Entry>)
    requires Sane(s) && k in s.rooms && i < n <= |s.rooms[k].slots|
    ensures s.rooms[k].slots[i] in s.peers
    ensures var c := s.rooms[k].slots[i];
            var p := P.Advance(s.peers[c]);
            var t := s.(peers := s.peers[c := p]);
            Sane(t) && Moved(s, k, i, n, es) == Moved(t, k, i + 1, n, es + [P.Shown(p)])
  {
    SaneRoom(s, k);
    var c := s.rooms[k].slots[i];
    SaneWith(s, c, P.Advance(s.peers[c]));
  }

  lemma MovedEnd<C>(s: State<C>, k: P.Place, n: nat, es: seq<Entry>)
    requires Sane(s) && k in s.rooms && n <= |s.rooms[k].slots|
    ensures Moved(s, k, n, n, es) == (s, es)
  {
  }

  /** Slots `i` to `n` of a room are offered a frame, as the loop over the slice header of the start
      finds them. */
  function Walked<C>(s: State<C>, k: P.Place, i: nat, n: nat, frame: Bytes): (r: State<C>)
    requires Sane(s) && k in s.rooms && n <= |s.rooms[k].slots|
    ensures Sane(r) && r.rooms.Keys == s.rooms.Keys && r.peers.Keys == s.peers.Keys
    decreases n - i
  {
    if i >= n then s else Walked(Offered(s, s.rooms[k].slots[i], frame), k, i + 1, n, frame)
  }

  lemma WalkedStep<C>(s: State<C>, k: P.Place, i: nat, n: nat, frame: Bytes)
    requires Sane(s) && k in s.rooms && i < n <= |s.rooms[k].slots|
    ensures s.rooms[k].slots[i] in s.peers
    ensures Walked(s, k, i, n, frame) == Walked(Offered(s, s.rooms[k].slots[i], frame), k, i + 1, n, frame)
  {
  }

  lemma WalkedPast<C>(s: State<C>, k: P.Place, i: nat, n: nat, frame: Bytes)
    requires Sane(s) && k in s.rooms && n <= |s.rooms[k].slots| && i >= n
    ensures Walked(s, k, i, n, frame) == s
  {
  }

  lemma WalkedEnd<C>(s: State<C>, k: P.Place, n: nat, frame: Bytes)
    requires Sane(s) && k in s.rooms && n <= |s.rooms[k].slots|
    ensures Walked(s, k, n, n, frame) == s
  {
  }

  function WithTick<C>(s: State<C>, k: P.Place, tick: int): (r: State<C>)
    requires Sane(s) && k in s.rooms
    ensures Sane(r) && r.peers == s.peers && r.midx == s.midx
  {
    s.(rooms := s.rooms[k := s.rooms[k].(tick := tick)])
  }

  function NextTick<C>(s: State<C>, k: P.Place): int
    requires k in s.rooms
  {
    (s.rooms[k].tick + 1) % TWO32
  }

  /** Everyone is moved, and the snapshot has the entries as they come. */
  function Built<C>(s: State<C>, k: P.Place): (r: (State<C>, seq<Entry>))
    requires Sane(s) && k in s.rooms
    ensures Sane(r.0) && r.0.rooms.Keys == s.rooms.Keys && r.0.peers.Keys == s.peers.Keys
    ensures s.rooms[k].n <= |s.rooms[k].slots| == |r.0.rooms[k].slots|
  {
    SaneRoom(s, k);
    Moved(WithTick(s, k, NextTick(s, k)), k, 0, s.rooms[k].n, [])
  }

  function Ticked<C>(s: State<C>, k: P.Place): (r: State<C>)
    requires Sane(s) && k in s.rooms
    ensures Sane(r) && r.rooms.Keys == s.rooms.Keys && r.peers.Keys == s.peers.Keys
  {
    if s.rooms[k].n == 0 then s
    else Walked(Built(s, k).0, k, 0, s.rooms[k].n, Frame(SnapshotPayload(NextTick(s, k), Built(s, k).1)))
  }

  function TickedAll<C>(s: State<C>, order: seq<P.Place>): (r: State<C>)
    requires Sane(s) && forall k | k in order :: k in s.rooms
    ensures Sane(r) && r.rooms.Keys == s.rooms.Keys && r.peers.Keys == s.peers.Keys
  {
    if order == [] then s else Ticked(TickedAll(s, order[..|order| - 1]), order[|order| - 1])
  }

  lemma WithTickIs<C>(s: State<C>, k: P.Place, tick: int)
    requires Sane(s) && k in s.rooms
    ensures WithTick(s, k, tick) == s.(rooms := s.rooms[k := Members(s.rooms[k].slots, s.rooms[k].n, tick)])
  {
  }

  lemma TickedNone<C>(s: State<C>)
    requires Sane(s)
    ensures TickedAll(s, []) == s
  {
  }

  lemma TickedMore<C>(s: State<C>, order: seq<P.Place>, i: nat)
    requires Sane(s) && i < |order| && forall k | k in order :: k in s.rooms
    ensures (forall k | k in order[..i] :: k in s.rooms) && forall k | k in order[..i + 1] :: k in s.rooms
    ensures order[i] in TickedAll(s, order[..i]).rooms
    ensures TickedAll(s, order[..i + 1]) == Ticked(TickedAll(s, order[..i]), order[i])
  {
    hide Ticked;
    assert order[..i + 1][..i] == order[..i];
  }
}
