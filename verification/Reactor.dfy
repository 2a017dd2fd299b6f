/** The single-threaded epoll reactor (servers/go-epoll): connections and rooms are objects
    updated in place, and the kernel is a script of answers held by each connection. In every
    state, whatever second JOINs have done to the lists, each event does to the objects what
    Lists says it does to their values. */
module Reactor {
  import opened Wire
  import opened Sequences
  import O = Outbound
  import P = Peers
  import L = Lists
  import opened Framing
  import I = Inbound

  class Conn {
    var wbuf: Bytes
    var wantOut: bool
    var closed: bool
    var room: Room?
    var midx: int
    var pid: int
    var x: int
    var y: int
    var vx: int
    var vy: int
    var lastSeq: int
    /** What was read and not yet dispatched, and what the kernel will answer to reads. */
    var rbuf: Bytes
    var input: seq<I.ReadResult>
    /** The kernel's side of the socket: its future answers, and what it has accepted. */
    var script: seq<O.WriteResult>
    var sent: Bytes
    ghost var admitted: seq<Bytes>

    constructor (script: seq<O.WriteResult>, input: seq<I.ReadResult>)
      ensures rbuf == [] && this.input == input
      ensures Peer() == P.Accepted(script) && room == null && midx == 0
    {
      wbuf, sent, admitted := [], [], [];
      wantOut, closed := false, false;
      room, midx, pid := null, 0, 0;
      x, y, vx, vy, lastSeq := 0, 0, 0, 0, 0;
      this.script, this.input, rbuf := script, input, [];
    }

    /** Reads until the socket has no more; `ok` is false when the connection is lost. */
    method ReadAll() returns (ok: bool)
      modifies `input, `rbuf
      ensures var d := I.Drain(old(input));
              input == d.later && ok == !d.lost && rbuf == old(rbuf) + d.data
    {
      I.DrainAppends(rbuf, [], input);
      assert rbuf + [] == rbuf;
      while input != []
        invariant I.DrainFrom(old(rbuf), old(input)) == I.DrainFrom(rbuf, input)
        decreases |input|
      {
        var answer := input[0];
        input := input[1..];
        match answer {
          case Intr =>
          case Again => break;
          case Error => return false;
          case Data(d) =>
            if |d| == 0 { return false; }
            rbuf := rbuf + d;
            if |d| < I.READ_CHUNK { break; }
        }
      }
      return true;
    }

    ghost function Out(): O.Out
      reads `sent, `wbuf, `wantOut, `closed, `script, `admitted
    {
      O.Out(sent, wbuf, wantOut, closed, script, admitted)
    }

    ghost function Peer(): P.Peer
      reads `pid, `room, `x, `y, `vx, `vy, `lastSeq, `sent, `wbuf, `wantOut, `closed, `script, `admitted
    {
      P.Peer(pid, if room == null then P.Nowhere else P.In(room.id), x, y, vx, vy, lastSeq, Out())
    }

    lemma Placed()
      ensures Peer().place == (if room == null then P.Nowhere else P.In(room.id)) && Peer().o.closed == closed
    {
    }

    method Place(pid: int, r: Room)
      modifies this`pid, this`room
      ensures room == r && Peer() == old(Peer()).(pid := pid, place := P.In(r.id))
    {
      this.pid, room := pid, r;
    }

    method Move(lastSeq: int, vx: int, vy: int)
      modifies this`lastSeq, this`vx, this`vy
      ensures Peer() == old(Peer()).(lastSeq := lastSeq, vx := vx, vy := vy)
    {
      this.lastSeq, this.vx, this.vy := lastSeq, vx, vy;
    }

    method Advance()
      modifies `x, `y
      ensures Peer() == P.Advance(old(Peer())) && Peer().o.closed == old(Peer()).o.closed
    {
      x := Wrap32(x + vx);
      y := Wrap32(y + vy);
    }

    /** The body of flush, up to a hard error. */
    method FlushAll() returns (failed: bool)
      requires !closed
      modifies `script, `sent, `wbuf, `wantOut
      ensures Peer() == old(Peer()).(o := Peer().o) && Peer().o.closed == old(Peer()).o.closed
      ensures O.Flush(old(Peer()).o) == if failed then Peer().o.(closed := true) else Peer().o
    {
      hide O.Flush;
      failed := Drain();
      if !failed && |wbuf| == 0 && wantOut { wantOut := false; }
    }

    lemma IsShown()
      ensures P.Shown(Peer()) == Entry(pid, x, y, lastSeq)
    {
    }

    method MarkClosed()
      modifies `closed
      ensures closed && Peer() == old(Peer()).(o := old(Peer()).o.(closed := true))
    {
      closed := true;
    }

    method MarkGone()
      modifies `room
      ensures room == null && Peer() == old(Peer()).(place := P.Nowhere)
    {
      room := null;
    }

    /** One write system call; the next answer of the script decides. */
    method Write(data: Bytes) returns (n: nat, err: O.WriteResult)
      modifies `script, `sent
      ensures err == O.Answer(old(script)) && script == O.Later(old(script))
      ensures n == O.Taken(err, |data|) && sent == old(sent) + data[..n]
    {
      err := O.Answer(script);
      script := O.Later(script);
      n := O.Taken(err, |data|);
      sent := sent + data[..n];
    }

    method ArmOut()
      modifies `wantOut
      ensures wantOut
    {
      if !wantOut { wantOut := true; }
    }

    /** The body of enqueue, up to a hard error; closing is left to the caller. */
    method Queue(b: Bytes) returns (failed: bool)
      modifies `script, `sent, `wbuf, `wantOut, `admitted
      ensures Peer() == old(Peer()).(o := Peer().o)
      ensures O.Enqueue(old(Peer()).o, b) == if failed then Peer().o.(closed := true) else Peer().o
      ensures Peer().o.closed == old(Peer()).o.closed
    {
      failed := false;
      if |wbuf| == 0 {
        var nn, err := Write(b);
        if err.Hard? {
          assert sent == old(sent);
          return true;
        }
        admitted := admitted + [b];
        if nn == |b| { return; }
        wbuf := wbuf + b[nn..];
        ArmOut();
        return;
      }
      if |wbuf| >= O.WBUF_CAP { return; }
      wbuf := wbuf + b;
      admitted := admitted + [b];
      ArmOut();
    }

    /** The write loop of flush, up to a hard error; closing is left to the caller. */
    method Drain() returns (failed: bool)
      requires !closed
      modifies `script, `sent, `wbuf
      ensures Peer() == old(Peer()).(o := Peer().o) && Peer().o.closed == old(Peer()).o.closed
      ensures O.Flush(old(Peer()).o) ==
                if failed then Peer().o.(closed := true)
                else if wbuf == [] then Peer().o.(wantOut := false)
                else Peer().o
    {
      failed := false;
      while |wbuf| > 0
        invariant Out() == old(Out()).(script := script, sent := sent, wbuf := wbuf)
        invariant O.Flush(Out()) == O.Flush(old(Out()))
        decreases |script|, |wbuf|
      {
        ghost var before := Out();
        var nn, err := Write(wbuf);
        assert before.sent + before.wbuf[..0] == before.sent && before.wbuf[0..] == before.wbuf;
        if nn > 0 { wbuf := wbuf[nn..]; }
        assert Out() == before.(script := O.Later(before.script), sent := before.sent + before.wbuf[..nn],
               wbuf := before.wbuf[nn..]);
        if err.Intr? { continue; }
        if err.Again? { return; }
        if err.Hard? { return true; }
        if nn == 0 { return; }
      }
    }
  }

  class Room {
    const id: int
    /** The backing array of the member slice, and the slice's length. Shrinking the slice
        leaves the slots behind it as they are. */
    var slots: seq<Conn>
    var n: nat
    var tick: int

    constructor (id: int)
      ensures this.id == id && slots == [] && n == 0 && tick == 0
    {
      this.id := id;
      slots, n, tick := [], 0, 0;
    }
  }

  /** These connections are what `v` says, and their rooms are those known by their ids. */
  ghost predicate ConnsMatch(cs: set<Conn>, v: L.State<Conn>, rooms: map<P.Place, Room>)
    reads cs
  {
    forall c | c in cs ::
      && c in v.peers && c in v.midx && c.Peer() == v.peers[c] && c.midx == v.midx[c]
      && (c.room != null ==> P.In(c.room.id) in rooms && rooms[P.In(c.room.id)] == c.room)
  }

  ghost predicate RoomsMatch(rs: set<Room>, v: L.State<Conn>)
    reads rs
  {
    forall r | r in rs :: P.In(r.id) in v.rooms && v.rooms[P.In(r.id)] == L.Members(r.slots, r.n, r.tick)
  }

  predicate Keyed(rooms: map<P.Place, Room>) { forall k | k in rooms :: k == P.In(rooms[k].id) }

  ghost function OpenIn(v: L.State<Conn>): set<Conn> { set c | c in v.peers && !v.peers[c].o.closed }

  class Worker {
    /** The open connections. */
    var conns: set<Conn>
    var rooms: map<P.Place, Room>
    var scratch: array<Byte>
    /** What the objects stand for: all connections there ever were, and all rooms. */
    ghost var view: L.State<Conn>

    /** All objects but `c` are what `v` says. */
    ghost predicate MatchesBut(c: Conn, v: L.State<Conn>)
      reads `rooms, rooms.Values, v.peers.Keys - {c}
    {
      && v.midx.Keys == v.peers.Keys && v.rooms.Keys == rooms.Keys && Keyed(rooms)
      && ConnsMatch(v.peers.Keys - {c}, v, rooms) && RoomsMatch(rooms.Values, v)
    }

    /** The objects are what the view says. */
    ghost predicate Matches()
      reads `view, `conns, `rooms, rooms.Values, view.peers.Keys
    {
      && view.midx.Keys == view.peers.Keys && view.rooms.Keys == rooms.Keys && Keyed(rooms)
      && conns == OpenIn(view)
      && ConnsMatch(view.peers.Keys, view, rooms) && RoomsMatch(rooms.Values, view)
    }

    ghost predicate Valid()
      reads `view, `conns, `rooms, rooms.Values, view.peers.Keys
    {
      Matches() && L.Sane(view)
    }

    constructor ()
      ensures Valid() && conns == {} && rooms == map[] && view == L.State(map[], map[], map[]) && fresh(scratch)
    {
      conns, rooms := {}, map[];
      scratch := new Byte[0];
      view := L.State(map[], map[], map[]);
    }

    ghost predicate Home(c: Conn)
      reads `rooms, c`room
    {
      c.room != null ==>
        P.In(c.room.id) in rooms && rooms[P.In(c.room.id)] == c.room && c.room in rooms.Values
    }

    /** What is known of one connection, and of all others. */
    lemma TakeConn(c: Conn)
      requires Matches() && c in view.peers
      ensures MatchesBut(c, view) && conns == OpenIn(view)
      ensures c.Peer() == view.peers[c] && c in view.midx && c.midx == view.midx[c] && Home(c)
    {
      if c.room != null { assert rooms[P.In(c.room.id)] in rooms.Values; }
    }

    /** The connection `c` has changed, from what it was in `v`. */
    lemma PutConn(c: Conn, v: L.State<Conn>)
      requires c in v.peers && MatchesBut(c, v) && Home(c)
      requires view == v.(peers := v.peers[c := c.Peer()]) && c in v.midx && c.midx == v.midx[c]
      requires conns == OpenIn(view)
      ensures Matches()
    {
    }

    lemma OpenButOne(v: L.State<Conn>, c: Conn, q: P.Peer)
      requires c in v.peers
      ensures var w := OpenIn(v.(peers := v.peers[c := q]));
              w == if q.o.closed then OpenIn(v) - {c} else OpenIn(v) + {c}
    {
      var t := v.(peers := v.peers[c := q]);
      assert forall d :: d in OpenIn(t) <==> if d == c then !q.o.closed else d in OpenIn(v);
    }

    /** `c` is to be closed: the first half, before its room is told. */
    method MarkClosed(c: Conn)
      requires Matches() && c in view.peers
      modifies `view, `conns, c`closed
      ensures Matches() && view == old(view).(peers := old(view).peers[c := c.Peer()])
      ensures c.closed && c.Peer() == old(c.Peer()).(o := old(c.Peer()).o.(closed := true))
    {
      hide Matches, MatchesBut, Home, OpenIn, Conn.Peer;
      ghost var v := view;
      TakeConn(c);
      c.MarkClosed();
      conns := conns - {c};
      view := v.(peers := v.peers[c := c.Peer()]);
      OpenButOne(v, c, c.Peer());
      PutConn(c, v);
    }

    method MarkGone(c: Conn)
      requires Matches() && c in view.peers
      modifies `view, c`room
      ensures Matches() && view == old(view).(peers := old(view).peers[c := c.Peer()])
      ensures c.Peer() == old(c.Peer()).(place := P.Nowhere)
    {
      hide Matches, MatchesBut, OpenIn, Conn.Peer;
      ghost var v := view;
      TakeConn(c);
      c.MarkGone();
      view := v.(peers := v.peers[c := c.Peer()]);
      SameOpen(v, c, c.Peer());
      PutConn(c, v);
    }

    lemma SameOpen(v: L.State<Conn>, c: Conn, q: P.Peer)
      requires c in v.peers && q.o.closed == v.peers[c].o.closed
      ensures OpenIn(v.(peers := v.peers[c := q])) == OpenIn(v)
    {
      OpenButOne(v, c, q);
    }

    /** All objects but `r` are what `v` says. */
    ghost predicate MatchesButRoom(r: Room, v: L.State<Conn>)
      reads `rooms, rooms.Values - {r}, v.peers.Keys
    {
      && v.midx.Keys == v.peers.Keys && v.rooms.Keys == rooms.Keys && Keyed(rooms)
      && ConnsMatch(v.peers.Keys, v, rooms) && RoomsMatch(rooms.Values - {r}, v)
    }

    ghost predicate Ours(r: Room)
      reads `rooms
    {
      P.In(r.id) in rooms && rooms[P.In(r.id)] == r && r in rooms.Values
    }

    lemma TakeRoom(r: Room)
      requires Matches() && Ours(r)
      ensures MatchesButRoom(r, view) && conns == OpenIn(view)
      ensures P.In(r.id) in view.rooms && view.rooms[P.In(r.id)] == L.Members(r.slots, r.n, r.tick)
    {
    }

    lemma PutRoom(r: Room, v: L.State<Conn>)
      requires MatchesButRoom(r, v) && Ours(r) && conns == OpenIn(v)
      requires view == v.(rooms := v.rooms[P.In(r.id) := L.Members(r.slots, r.n, r.tick)])
      ensures Matches()
    {
      assert OpenIn(view) == OpenIn(v);
      forall q | q in rooms.Values - {r} ensures q.id != r.id { KeyedApart(q, r); }
    }

    lemma KeyedApart(q: Room, r: Room)
      requires Keyed(rooms) && q in rooms.Values && Ours(r)
      ensures q.id == r.id ==> q == r
    {
      var k: P.Place :| k in rooms && rooms[k] == q;
    }

    lemma PutMidx(c: Conn, v: L.State<Conn>)
      requires c in v.peers && MatchesBut(c, v) && Home(c) && c.Peer() == v.peers[c] && conns == OpenIn(v)
      requires view == v.(midx := v.midx[c := c.midx])
      ensures Matches()
    {
      assert OpenIn(view) == OpenIn(v);
    }

    method SetSlots(r: Room, slots: seq<Conn>, n: nat)
      requires Matches() && Ours(r)
      modifies `view, r`slots, r`n
      ensures Matches() && r.slots == slots && r.n == n
      ensures view == old(view).(rooms := old(view).rooms[P.In(r.id) := L.Members(slots, n, r.tick)])
    {
      hide Matches, MatchesButRoom, OpenIn;
      ghost var v := view;
      TakeRoom(r);
      r.slots, r.n := slots, n;
      view := v.(rooms := v.rooms[P.In(r.id) := L.Members(slots, n, r.tick)]);
      PutRoom(r, v);
    }

    method SetMidx(c: Conn, midx: int)
      requires Matches() && c in view.peers
      modifies `view, c`midx
      ensures Matches() && view == old(view).(midx := old(view).midx[c := midx])
    {
      hide Matches, MatchesBut, OpenIn, Conn.Peer;
      ghost var v := view;
      TakeConn(c);
      c.midx := midx;
      view := v.(midx := v.midx[c := midx]);
      PutMidx(c, v);
    }

    lemma SaneRoom(r: Room)
      requires Matches() && Ours(r) && L.RoomSane(view, P.In(r.id))
      ensures r.n <= |r.slots| && forall i | 0 <= i < |r.slots| :: r.slots[i] in view.peers
    {
      TakeRoom(r);
    }

    /** The last member takes over slot `i`. */
    method Swap(r: Room, i: nat)
      requires Matches() && Ours(r) && i < r.n <= |r.slots| && r.slots[r.n - 1] in view.peers
      modifies `view, r`slots, r`n, view.peers.Keys`midx
      ensures Matches() && P.In(r.id) in old(view).rooms
      ensures var k, e, slots := P.In(r.id), old(r.slots)[old(r.n) - 1], old(r.slots)[i := old(r.slots)[old(r.n) - 1]];
              var t := old(view).(rooms := old(view).rooms[k := L.Members(slots, old(r.n), r.tick)]);
              var u := t.(midx := t.midx[e := i]);
              view == u.(rooms := u.rooms[k := L.Members(slots, old(r.n) - 1, r.tick)])
    {
      hide Matches;
      TakeRoom(r);
      var last := r.n - 1;
      SetSlots(r, r.slots[i := r.slots[last]], r.n);
      SetMidx(r.slots[i], i);
      SetSlots(r, r.slots, last);
    }

    /** Swap-remove, if the connection is where its index says. */
    method Unlist(c: Conn, r: Room)
      requires Matches() && Ours(r) && c in view.peers && c in view.midx && c.midx >= 0
      requires P.In(r.id) in view.rooms && L.RoomSane(view, P.In(r.id))
      modifies `view, r`slots, r`n, view.peers.Keys`midx
      ensures c in old(view).midx && old(view).midx[c] >= 0
      ensures Matches() && view == L.Unlisted(old(view), c, P.In(r.id))
    {
      hide Matches, MatchesBut, MatchesButRoom, OpenIn, L.Unlisted, L.RoomSane, Conn.Peer;
      ghost var k := P.In(r.id);
      TakeConn(c);
      TakeRoom(r);
      SaneRoom(r);
      L.UnlistedSteps(view, c, k);
      var last := r.n - 1;
      if c.midx <= last && r.slots[c.midx] == c { Swap(r, c.midx); }
    }

    /** Closes a connection once. */
    method CloseConn(c: Conn)
      requires Valid() && c in view.peers
      modifies `view, `conns, c`closed, c`room, rooms.Values`slots, rooms.Values`n, view.peers.Keys`midx
      ensures view == L.Hung(old(view), c) && Valid()
    {
      hide Matches, MatchesBut, OpenIn, L.Sane, L.Hung, L.Unlisted, L.RoomSane, Conn.Peer;
      ghost var v := view;
      TakeConn(c);
      L.SaneConn(v, c);
      c.Placed();
      if c.closed {
        L.HungAgain(v, c);
        return;
      }
      MarkClosed(c);
      var r := c.room;
      if r != null {
        L.HungSteps(v, c, c.Peer());
        Unlist(c, r);
        MarkGone(c);
      } else {
        L.HungNowhere(v, c);
      }
    }

    /** Fields of `c` that are its own have changed. */
    ghost method Update(c: Conn, v: L.State<Conn>)
      requires c in v.peers && MatchesBut(c, v) && Home(c) && view == v && conns == OpenIn(v)
      requires c in v.midx && c.midx == v.midx[c] && c.Peer().o.closed == v.peers[c].o.closed
      modifies `view
      ensures Matches() && view == v.(peers := v.peers[c := c.Peer()])
    {
      hide MatchesBut, Conn.Peer;
      view := v.(peers := v.peers[c := c.Peer()]);
      SameOpen(v, c, c.Peer());
      PutConn(c, v);
    }

    /** Writes a frame, or queues or sheds it; also on a connection that is closed already. */
    method Enqueue(c: Conn, b: Bytes)
      requires Valid() && c in view.peers
      modifies `view, `conns, c`script, c`sent, c`wbuf, c`wantOut, c`admitted
      modifies c`closed, c`room, rooms.Values`slots, rooms.Values`n, view.peers.Keys`midx
      ensures view == L.Offered(old(view), c, b) && Valid()
    {
      hide Matches, MatchesBut, Home, OpenIn, L.Sane, L.Hung, L.Offered, Conn.Peer;
      ghost var v := view;
      TakeConn(c);
      L.SaneConn(v, c);
      c.Placed();
      var failed := c.Queue(b);
      Update(c, v);
      L.OfferedSteps(v, c, b, c.Peer(), failed);
      if failed { CloseConn(c); }
    }

    method Flush(c: Conn)
      requires Valid() && c in view.peers && !c.closed
      modifies `view, `conns, c`script, c`sent, c`wbuf, c`wantOut
      modifies c`closed, c`room, rooms.Values`slots, rooms.Values`n, view.peers.Keys`midx
      ensures view == L.Writable(old(view), c) && Valid()
    {
      hide Matches, MatchesBut, Home, OpenIn, L.Sane, L.Hung, L.Writable, O.Flush, Conn.Peer;
      ghost var v := view;
      TakeConn(c);
      L.SaneConn(v, c);
      c.Placed();
      var failed := c.FlushAll();
      Update(c, v);
      L.WritableSteps(v, c, c.Peer(), failed);
      if failed { CloseConn(c); }
    }

    method Accept(script: seq<O.WriteResult>, input: seq<I.ReadResult>) returns (c: Conn)
      requires Valid()
      modifies `view, `conns
      ensures fresh(c) && c !in old(view).peers && view == L.Accepted(old(view), c, script) && Valid()
      ensures c.rbuf == [] && c.input == input
    {
      hide L.Sane, Matches, ConnsMatch, RoomsMatch, OpenIn, Conn.Peer;
      ghost var v := view;
      Parts();
      c := new Conn(script, input);
      conns := conns + {c};
      view := L.Accepted(v, c, script);
      NewConn(c, v, script);
    }

    lemma Parts()
      requires Matches()
      ensures Keyed(rooms) && view.midx.Keys == view.peers.Keys && view.rooms.Keys == rooms.Keys
      ensures conns == OpenIn(view)
      ensures ConnsMatch(view.peers.Keys, view, rooms) && RoomsMatch(rooms.Values, view)
    {
    }

    lemma NewConn(c: Conn, v: L.State<Conn>, script: seq<O.WriteResult>)
      requires L.Sane(v) && c !in v.peers && view == L.Accepted(v, c, script)
      requires Keyed(rooms) && v.midx.Keys == v.peers.Keys && v.rooms.Keys == rooms.Keys && conns == OpenIn(v) + {c}
      requires ConnsMatch(v.peers.Keys, v, rooms) && RoomsMatch(rooms.Values, v)
      requires c.Peer() == P.Accepted(script) && c.room == null && c.midx == 0
      ensures Matches()
    {
      hide L.Sane;
      assert OpenIn(view) == OpenIn(v) + {c};
    }

    method GetRoom(id: int) returns (r: Room)
      requires Valid()
      modifies `view, `rooms
      ensures r.id == id && Ours(r) && view == L.WithRoom(old(view), P.In(id)) && Valid()
      ensures rooms == old(rooms) || (rooms == old(rooms)[P.In(id) := r] && fresh(r))
    {
      hide L.Sane, L.WithRoom, Matches, OpenIn, Conn.Peer;
      var k := P.In(id);
      L.WithRoomIs(view, k);
      Known(k);
      if k in rooms { return rooms[k]; }
      r := new Room(id);
      ghost var was := rooms;
      rooms := rooms[k := r];
      view := view.(rooms := view.rooms[k := L.Members([], 0, 0)]);
      NewRoom(r, was, old(view));
    }

    lemma Known(k: P.Place)
      requires Matches()
      ensures k in rooms <==> k in view.rooms
      ensures k in rooms ==> k == P.In(rooms[k].id) && rooms[k] in rooms.Values
      ensures Keyed(rooms) && view.midx.Keys == view.peers.Keys && view.rooms.Keys == rooms.Keys
      ensures conns == OpenIn(view)
      ensures ConnsMatch(view.peers.Keys, view, rooms) && RoomsMatch(rooms.Values, view)
    {
    }

    lemma NewRoom(r: Room, was: map<P.Place, Room>, v: L.State<Conn>)
      requires Keyed(was) && P.In(r.id) !in was && rooms == was[P.In(r.id) := r]
      requires v.midx.Keys == v.peers.Keys && v.rooms.Keys == was.Keys && conns == OpenIn(v)
      requires ConnsMatch(v.peers.Keys, v, was) && RoomsMatch(was.Values, v)
      requires r.slots == [] && r.n == 0 && r.tick == 0
      requires view == v.(rooms := v.rooms[P.In(r.id) := L.Members([], 0, 0)])
      ensures Matches() && Ours(r)
    {
      assert OpenIn(view) == OpenIn(v) && rooms[P.In(r.id)] in rooms.Values;
      forall q | q in rooms.Values ensures q == r || q in was.Values { }
      forall q | q in was.Values ensures q.id != r.id {
        var k: P.Place :| k in was && was[k] == q;
      }
    }

    method PlaceConn(c: Conn, r: Room, pid: int)
      requires Matches() && Ours(r) && c in view.peers
      modifies `view, c`pid, c`room
      ensures Matches() && c.room == r
      ensures view == old(view).(peers := old(view).peers[c := old(view).peers[c].(pid := pid, place := P.In(r.id))])
    {
      hide Matches, MatchesBut, OpenIn, Conn.Peer;
      ghost var v := view;
      TakeConn(c);
      c.Place(pid, r);
      Update(c, v);
    }

    method Append(c: Conn, r: Room, pid: int)
      requires Valid() && Ours(r) && c in view.peers && !c.closed
      modifies `view, c`pid, c`room, c`midx, r`slots, r`n
      ensures !old(view).peers[c].o.closed && view == L.Appended(old(view), c, P.In(r.id), pid) && Valid()
    {
      hide Matches, L.Sane, L.Appended, Conn.Peer;
      TakeConn(c);
      TakeRoom(r);
      c.Placed();
      L.AppendedTo(view, c, P.In(r.id), pid);
      PlaceConn(c, r, pid);
      var n := r.n;
      SetMidx(c, n);
      SetSlots(r, r.slots[..n] + [c], n + 1);
    }

    /** A JOIN, first or not. */
    method Join(c: Conn, room: int, pid: int)
      requires Valid() && c in view.peers && !c.closed
      modifies `view, `conns, `rooms, c`pid, c`room, c`script, c`sent, c`wbuf, c`wantOut, c`admitted, c`closed
      modifies rooms.Values`slots, rooms.Values`n, view.peers.Keys`midx
      ensures !old(view).peers[c].o.closed && Valid()
      ensures view == L.Offered(L.Appended(old(view), c, P.In(room), pid), c, Frame(JoinedPayload(pid, room)))
      ensures forall r | r in rooms.Values :: r in old(rooms.Values) || fresh(r)
    {
      hide Matches, L.Sane, L.Appended, L.Offered, L.WithRoom, Conn.Peer, JoinedPayload, Frame;
      TakeConn(c);
      c.Placed();
      L.AppendedFirst(view, c, P.In(room), pid);
      var r := GetRoom(room);
      Append(c, r, pid);
      Enqueue(c, Frame(JoinedPayload(pid, room)));
    }

    method Move(c: Conn, lastSeq: int, vx: int, vy: int)
      requires Matches() && c in view.peers
      modifies `view, c`lastSeq, c`vx, c`vy
      ensures Matches()
      ensures view == old(view).(peers :=
                        old(view).peers[c := old(view).peers[c].(lastSeq := lastSeq, vx := vx, vy := vy)])
    {
      hide Matches, MatchesBut, Home, OpenIn, Conn.Peer;
      ghost var v := view;
      TakeConn(c);
      c.Move(lastSeq, vx, vy);
      Update(c, v);
    }

    /** One dispatched frame. A MOVE counts before a JOIN too; whatever is too short or of another
        kind is ignored. */
    method Handle(c: Conn, payload: Bytes, pid: int)
      requires Valid() && c in view.peers && !c.closed && |payload| > 0
      modifies `view, `conns, `rooms, c`pid, c`room, c`script, c`sent, c`wbuf, c`wantOut, c`admitted, c`closed
      modifies c`lastSeq, c`vx, c`vy, rooms.Values`slots, rooms.Values`n, view.peers.Keys`midx
      ensures view == L.Handled(old(view), c, payload, pid) && Valid()
      ensures forall r | r in rooms.Values :: r in old(rooms.Values) || fresh(r)
    {
      hide Matches, L.Sane, L.Handled, L.Appended, L.Offered, Conn.Peer, Get32, Get16, JoinedPayload, Frame;
      TakeConn(c);
      c.Placed();
      L.HandledIs(view, c, payload, pid);
      match payload[0]
      case 0x01 =>
        if |payload| < 5 { return; }
        Join(c, Get32(payload, 1), pid);
      case 0x02 =>
        if |payload| < 9 { return; }
        Move(c, Get32(payload, 1), AsI16(Get16(payload, 5)), AsI16(Get16(payload, 7)));
      case _ =>
    }

    /** Dispatches every complete frame in place and compacts once at the end. */
    method Parse(c: Conn, pids: seq<int>)
      requires Valid() && c in view.peers && !c.closed
      modifies `view, `conns, `rooms, c`rbuf, c`pid, c`room, c`script, c`sent, c`wbuf, c`wantOut, c`admitted, c`closed
      modifies c`lastSeq, c`vx, c`vy, rooms.Values`slots, rooms.Values`n, view.peers.Keys`midx
      ensures Valid() && L.Sane(old(view)) && view.peers.Keys == old(view).peers.Keys
      ensures var i := Feed([], old(c.rbuf), L.Rejects(old(view), c, pids));
              view == L.Received(old(view), c, i, pids) && c.rbuf == if i.closed then old(c.rbuf) else i.rest
      ensures forall r | r in rooms.Values :: r in old(rooms.Values) || fresh(r)
    {
      hide Matches, MatchesBut, Home, OpenIn, L.Sane, L.Dispatched, L.Handled, L.Rejects, Feed, Conn.Peer, Get32;
      ghost var v := view;
      ghost var kills := L.Rejects(v, c, pids);
      ghost var log: seq<Bytes> := [];
      L.DispatchedNone(v, c, pids);
      var off, joins := 0, 0;
      var buf := c.rbuf;
      assert buf[0..] == buf;
      while true
        invariant off <= |buf| && c.rbuf == buf && Valid() && view.peers.Keys == v.peers.Keys && !c.closed
        invariant view == L.Dispatched(v, c, log, pids) && joins == L.JoinsIn(log)
        invariant Feed(log, buf[off..], kills) == Feed([], buf, kills)
        invariant forall r | r in rooms.Values :: r in old(rooms.Values) || fresh(r)
        decreases |buf| - off
      {
        FeedAt(log, buf, off, kills);
        if |buf| - off < 4 { break; }
        var n := Get32(buf, off);
        if n == 0 || n > MAX_FRAME {
          CloseConn(c);
          return;
        }
        if |buf| - off < 4 + n { break; }
        var payload := buf[off + 4..off + 4 + n];
        L.DispatchedMore(v, c, log, payload, pids);
        Handle(c, payload, L.PidAt(pids, joins));
        log := log + [payload];
        RejectsIs(v, c, log, pids);
        if P.IsJoin(payload) { joins := joins + 1; }
        if c.closed { return; }
        off := off + (4 + n);
      }
      TakeConn(c);
      ghost var w := view;
      if off > 0 { c.rbuf := c.rbuf[off..]; }
      PutSame(c, w);
    }

    /** Nothing that the view is about has changed. */
    lemma PutSame(c: Conn, v: L.State<Conn>)
      requires c in v.peers && MatchesBut(c, v) && Home(c) && view == v && conns == OpenIn(v)
      requires c.Peer() == v.peers[c] && c in v.midx && c.midx == v.midx[c]
      ensures Matches()
    {
    }

    lemma RejectsIs(v: L.State<Conn>, c: Conn, log: seq<Bytes>, pids: seq<int>)
      requires L.Sane(v) && Matches() && c in v.peers && c in view.peers && view == L.Dispatched(v, c, log, pids)
      ensures L.Rejects(v, c, pids)(log) == c.closed
      ensures c.closed && L.Sane(view) ==> L.Hung(view, c) == view
    {
      hide L.Sane, L.Dispatched, L.Hung;
      TakeConn(c);
      c.Placed();
      if c.closed && L.Sane(view) { L.HungAgain(view, c); }
    }

    /** A readiness event: what the buffer and the bytes read parse into is dispatched, in order, until
        the connection is closed; if it is lost nothing is dispatched, even of what was read. */
    method OnReadable(c: Conn, pids: seq<int>)
      requires Valid() && c in view.peers && !c.closed
      modifies `view, `conns, `rooms, c`input, c`rbuf, c`pid, c`room, c`script, c`sent, c`wbuf, c`wantOut, c`admitted
      modifies c`closed, c`lastSeq, c`vx, c`vy, rooms.Values`slots, rooms.Values`n, view.peers.Keys`midx
      ensures Valid() && L.Sane(old(view)) && view.peers.Keys == old(view).peers.Keys
      ensures var d := I.Drain(old(c.input));
              && c.input == d.later
              && (if d.lost then view == L.Hung(old(view), c) && c.rbuf == old(c.rbuf) + d.data
                  else
                    var i := Feed([], old(c.rbuf) + d.data, L.Rejects(old(view), c, pids));
                    && view == L.Received(old(view), c, i, pids)
                    && c.rbuf == if i.closed then old(c.rbuf) + d.data else i.rest)
      ensures forall r | r in rooms.Values :: r in old(rooms.Values) || fresh(r)
    {
      hide Matches, MatchesBut, Home, OpenIn, L.Sane, L.Received, L.Rejects, L.Hung, Feed, I.Drain, Conn.Peer;
      ghost var v := view;
      TakeConn(c);
      var ok := c.ReadAll();
      PutSame(c, v);
      if !ok {
        CloseConn(c);
        return;
      }
      Parse(c, pids);
    }

    // ---- a tick ----

    method Advance(c: Conn, off: nat)
      requires Matches() && c in view.peers && off + 16 <= scratch.Length
      modifies `view, c`x, c`y, scratch
      ensures Matches() && view == old(view).(peers := old(view).peers[c := P.Advance(old(view).peers[c])])
      ensures scratch[..off + 16] == old(scratch[..off]) + EntryBytes(P.Shown(P.Advance(old(view).peers[c])))
    {
      hide Matches, MatchesBut, Home, OpenIn, Conn.Peer, P.Advance, EntryBytes;
      ghost var v := view;
      TakeConn(c);
      c.Advance();
      Update(c, v);
      c.IsShown();
      PutEntry(scratch, off, Entry(c.pid, c.x, c.y, c.lastSeq));
      assert Matches();
    }

    /** What a loop over slots needs of a room. */
    ghost predicate Walkable(r: Room, n: nat)
      reads `view, `conns, `rooms, rooms.Values, view.peers.Keys
    {
      Valid() && Ours(r) && P.In(r.id) in view.rooms && n <= |view.rooms[P.In(r.id)].slots| && n <= |r.slots|
    }

    lemma WalkableNow(r: Room, n: nat)
      requires Valid() && Ours(r) && P.In(r.id) in view.rooms && n <= |view.rooms[P.In(r.id)].slots|
      ensures Walkable(r, n) && view.rooms[P.In(r.id)].slots == r.slots
      ensures forall i | 0 <= i < n :: r.slots[i] in view.peers
    {
      hide Matches, L.Sane;
      TakeRoom(r);
      L.SaneRoom(view, P.In(r.id));
    }

    /** The owner of one slot moves, and goes into the snapshot. */
    method BuildSlot(r: Room, i: nat, n: nat, off: nat, ghost es: seq<Entry>) returns (ghost more: seq<Entry>)
      requires Walkable(r, n) && i < n && off + 16 <= scratch.Length
      modifies `view, scratch, view.peers.Keys`x, view.peers.Keys`y
      ensures Walkable(r, n) && view.peers.Keys == old(view).peers.Keys
      ensures L.Sane(old(view)) && P.In(r.id) in old(view).rooms && n <= |old(view).rooms[P.In(r.id)].slots|
      ensures L.Moved(old(view), P.In(r.id), i, n, es) == L.Moved(view, P.In(r.id), i + 1, n, more)
      ensures |more| == |es| + 1 && more[..|es|] == es
      ensures scratch[..off + 16] == old(scratch[..off]) + EntryBytes(more[|es|])
    {
      hide Matches, L.Sane, L.Moved, P.Advance, P.Shown, EntryBytes, Conn.Peer;
      ghost var v, k := view, P.In(r.id);
      WalkableNow(r, n);
      L.MovedStep(v, k, i, n, es);
      var c := r.slots[i];
      more := es + [P.Shown(P.Advance(v.peers[c]))];
      Advance(c, off);
      WalkableNow(r, n);
    }

    /** Moves the owner of every slot and writes the snapshot into the reused buffer. */
    method Build(r: Room) returns (b: Bytes)
      requires Walkable(r, r.n)
      modifies `view, `scratch, scratch, view.peers.Keys`x, view.peers.Keys`y
      ensures Walkable(r, r.n) && (scratch == old(scratch) || fresh(scratch)) && view.peers.Keys == old(view).peers.Keys
      ensures L.Sane(old(view)) && P.In(r.id) in old(view).rooms && r.n <= |old(view).rooms[P.In(r.id)].slots|
      ensures view == L.Moved(old(view), P.In(r.id), 0, r.n, []).0
      ensures b == Frame(SnapshotPayload(r.tick, L.Moved(old(view), P.In(r.id), 0, r.n, []).1))
    {
      hide Matches, L.Sane, L.Moved, SnapshotHeader, EntryBytes, EntriesBytes, SnapshotPayload, Frame;
      ghost var v, k, es := view, P.In(r.id), [];
      var n := r.n;
      var size := 4 + (7 + n * 16);
      if scratch.Length < size { scratch := new Byte[size]; }
      PutHeader(scratch, r.tick, n);
      var off := 11;
      Header(scratch[..off], r.tick, n);
      for i := 0 to n
        invariant Walkable(r, n) && |es| == i && view.peers.Keys == v.peers.Keys
        invariant off == 11 + 16 * i && 11 + 16 * n <= scratch.Length && (scratch == old(scratch) || fresh(scratch))
        invariant L.Moved(view, k, i, n, es) == L.Moved(v, k, 0, n, [])
        invariant scratch[..off] == SnapshotHeader(r.tick, n) + EntriesBytes(es)
      {
        ghost var was := es;
        es := BuildSlot(r, i, n, off, es);
        EntriesMore(was, es[i]);
        assert es == was + [es[i]];
        off := off + 16;
      }
      L.MovedEnd(view, k, n, es);
      HeaderAndEntries(r.tick, es);
      b := scratch[..size];
    }

    lemma Header(b: Bytes, tick: int, n: nat)
      requires b == SnapshotHeader(tick, n)
      ensures b == SnapshotHeader(tick, n) + EntriesBytes([])
    {
    }

    /** The owner of one slot is offered the frame. */
    method BroadcastSlot(r: Room, i: nat, n: nat, b: Bytes)
      requires Walkable(r, n) && i < n
      modifies `view, `conns, rooms.Values`slots, rooms.Values`n, view.peers.Keys`midx, view.peers.Keys`room
      modifies view.peers.Keys`closed, view.peers.Keys`script, view.peers.Keys`sent, view.peers.Keys`wbuf
      modifies view.peers.Keys`wantOut, view.peers.Keys`admitted
      ensures Walkable(r, n) && view.peers.Keys == old(view).peers.Keys
      ensures L.Sane(old(view)) && P.In(r.id) in old(view).rooms && n <= |old(view).rooms[P.In(r.id)].slots|
      ensures L.Walked(old(view), P.In(r.id), i, n, b) == L.Walked(view, P.In(r.id), i + 1, n, b)
    {
      hide Matches, L.Sane, L.Walked, Conn.Peer;
      ghost var v, k := view, P.In(r.id);
      WalkableNow(r, n);
      L.WalkedStep(v, k, i, n, b);
      Enqueue(r.slots[i], b);
      WalkableNow(r, n);
    }

    /** The range loop of a tick: it fixes the slice header before the first write, while failed
        writes shrink the room and overwrite slots of the array it walks over. */
    method Broadcast(r: Room, n: nat, b: Bytes)
      requires Walkable(r, n)
      modifies `view, `conns, rooms.Values`slots, rooms.Values`n, view.peers.Keys`midx, view.peers.Keys`room
      modifies view.peers.Keys`closed, view.peers.Keys`script, view.peers.Keys`sent, view.peers.Keys`wbuf
      modifies view.peers.Keys`wantOut, view.peers.Keys`admitted
      ensures Walkable(r, n) && view.peers.Keys == old(view).peers.Keys
      ensures L.Sane(old(view)) && P.In(r.id) in old(view).rooms && n <= |old(view).rooms[P.In(r.id)].slots|
      ensures view == L.Walked(old(view), P.In(r.id), 0, n, b)
    {
      hide L.Sane, L.Walked, Matches;
      ghost var v, k := view, P.In(r.id);
      for i := 0 to n
        invariant Walkable(r, n) && view.peers.Keys == v.peers.Keys
        invariant L.Walked(view, k, i, n, b) == L.Walked(v, k, 0, n, b)
      {
        BroadcastSlot(r, i, n, b);
      }
      L.WalkedEnd(view, k, n, b);
    }

    method SetTick(r: Room, tick: int)
      requires Valid() && Ours(r)
      modifies `view, r`tick
      ensures Valid() && r.tick == tick && P.In(r.id) in old(view).rooms && L.Sane(old(view))
      ensures view == L.WithTick(old(view), P.In(r.id), tick) && view.peers.Keys == old(view).peers.Keys
    {
      hide Matches, MatchesButRoom, OpenIn, L.Sane, L.WithTick;
      ghost var v := view;
      TakeRoom(r);
      L.WithTickIs(v, P.In(r.id), tick);
      r.tick := tick;
      view := L.WithTick(v, P.In(r.id), tick);
      PutRoom(r, v);
    }

    /** The first half of a tick: the next tick number, everyone moved, the snapshot written. */
    method Prepare(r: Room) returns (b: Bytes)
      requires Walkable(r, r.n)
      modifies `view, `scratch, scratch, r`tick, view.peers.Keys`x, view.peers.Keys`y
      ensures Walkable(r, r.n) && (scratch == old(scratch) || fresh(scratch)) && view.peers.Keys == old(view).peers.Keys
      ensures P.In(r.id) in old(view).rooms && L.Sane(old(view)) && view == L.Built(old(view), P.In(r.id)).0
      ensures b == Frame(SnapshotPayload(L.NextTick(old(view), P.In(r.id)), L.Built(old(view), P.In(r.id)).1))
    {
      hide Matches, L.Sane, L.Moved, L.WithTick, SnapshotPayload, Frame;
      TakeRoom(r);
      SetTick(r, (r.tick + 1) % TWO32);
      TakeRoom(r);
      WalkableNow(r, r.n);
      b := Build(r);
    }

    /** One tick of a room. */
    method Step(r: Room)
      requires Valid() && Ours(r)
      modifies `view, `conns, `scratch, scratch, r`tick, rooms.Values`slots, rooms.Values`n
      modifies view.peers.Keys`midx, view.peers.Keys`room, view.peers.Keys`x, view.peers.Keys`y
      modifies view.peers.Keys`closed, view.peers.Keys`script, view.peers.Keys`sent, view.peers.Keys`wbuf
      modifies view.peers.Keys`wantOut, view.peers.Keys`admitted
      ensures Valid() && (scratch == old(scratch) || fresh(scratch)) && view.peers.Keys == old(view).peers.Keys
      ensures P.In(r.id) in old(view).rooms && L.Sane(old(view)) && view == L.Ticked(old(view), P.In(r.id))
    {
      hide Matches, L.Sane, L.Built, L.Walked, SnapshotPayload, Frame;
      TakeRoom(r);
      L.SaneRoom(view, P.In(r.id));
      if r.n == 0 { return; }
      var n := r.n;
      WalkableNow(r, n);
      var b := Prepare(r);
      Broadcast(r, n, b);
    }

    /** The timer: every room, in the order in which the map yields them. */
    method OnTick(order: seq<Room>)
      requires Valid() && forall r | r in order :: Ours(r)
      modifies `view, `conns, `scratch, scratch, rooms.Values
      modifies view.peers.Keys`midx, view.peers.Keys`room, view.peers.Keys`x, view.peers.Keys`y
      modifies view.peers.Keys`closed, view.peers.Keys`script, view.peers.Keys`sent, view.peers.Keys`wbuf
      modifies view.peers.Keys`wantOut, view.peers.Keys`admitted
      ensures Valid() && (scratch == old(scratch) || fresh(scratch)) && view.peers.Keys == old(view).peers.Keys
      ensures L.Sane(old(view)) && (forall k | k in Keys(order) :: k in old(view).rooms)
      ensures view == L.TickedAll(old(view), Keys(order))
    {
      hide Matches, L.Sane, L.Ticked, L.TickedAll;
      ghost var v := view;
      OursKnown(order);
      L.TickedNone(v);
      for i := 0 to |order|
        invariant Valid() && (scratch == old(scratch) || fresh(scratch)) && view.peers.Keys == v.peers.Keys
        invariant view == L.TickedAll(v, Keys(order)[..i])
      {
        assert order[i] in order;
        L.TickedMore(v, Keys(order), i);
        Step(order[i]);
      }
      assert Keys(order)[..|order|] == Keys(order);
    }

    lemma AllOurs()
      requires Matches()
      ensures forall r | r in rooms.Values :: Ours(r)
    {
      forall r | r in rooms.Values ensures Ours(r) {
        var k: P.Place :| k in rooms && rooms[k] == r;
      }
    }

    lemma OursKnown(order: seq<Room>)
      requires Matches() && forall r | r in order :: Ours(r)
      ensures forall k | k in Keys(order) :: k in view.rooms
    {
      forall k | k in Keys(order) ensures k in view.rooms {
        var i :| 0 <= i < |order| && Keys(order)[i] == k;
        assert order[i] in order;
      }
    }
  }

  function Keys(order: seq<Room>): (ks: seq<P.Place>)
    ensures |ks| == |order| && forall i | 0 <= i < |order| :: ks[i] == P.In(order[i].id)
  {
    seq(|order|, i requires 0 <= i < |order| => P.In(order[i].id))
  }
}
