/** Room membership in the single-threaded servers that leave a room on a second JOIN
    (servers/zig, servers/odin): lists with back-indices, and removal by swapping in the last. */
module Membership {

  /** What befalls the connections of one worker, by their number in the order of acceptance. */
  datatype Event = Accept | Join(conn: nat, room: int, pid: int) | Close(conn: nat)

  datatype Place = Nowhere | In(room: int)

  function Accepted(es: seq<Event>): nat
  {
    if es == [] then 0 else Accepted(es[..|es| - 1]) + if es[|es| - 1].Accept? then 1 else 0
  }

  predicate Open(es: seq<Event>, i: nat) { i < Accepted(es) && Close(i) !in es }

  /** Where a connection belongs: in the room its last JOIN named, until it closes. */
  function PlaceOf(es: seq<Event>, i: nat): Place
  {
    if es == [] then Nowhere else
    match es[|es| - 1]
    case Join(j, room, _) => if j == i then In(room) else PlaceOf(es[..|es| - 1], i)
    case Close(j) => if j == i then Nowhere else PlaceOf(es[..|es| - 1], i)
    case Accept => PlaceOf(es[..|es| - 1], i)
  }

  /** The kernel reports events of open connections only. */
  predicate Possible(es: seq<Event>)
  {
    forall k | 0 <= k < |es| :: es[k].Accept? || Open(es[..k], es[k].conn)
  }

  class Conn {
    var room: Room?
    var midx: int
    var pid: int

    constructor ()
      ensures room == null
    {
      room, midx, pid := null, -1, 0;
    }
  }

  class Room {
    const id: int
    var members: seq<Conn>

    constructor (id: int)
      ensures this.id == id && members == []
    {
      this.id, members := id, [];
    }
  }

  ghost function At(c: Conn): Place
    reads c
  {
    if c.room == null then Nowhere else In(c.room.id)
  }

  class Worker {
    var rooms: map<int, Room>
    /** The open connections, and all there ever were. */
    ghost var conns: set<Conn>
    var accepted: seq<Conn>

    ghost predicate RoomsOk(open: set<Conn>)
      reads this, rooms.Values, open
    {
      forall k | k in rooms :: rooms[k].id == k && ListOk(rooms[k], open)
    }

    ghost predicate ListOk(r: Room, open: set<Conn>)
      reads r, open
    {
      forall i | 0 <= i < |r.members| :: r.members[i] in open && r.members[i].midx == i && r.members[i].room == r
    }

    /** A connection with a room is in the list of that room, at the index it says. */
    ghost predicate Listed(c: Conn)
      reads this, c, c.room
    {
      c.room != null ==>
        && c.room.id in rooms && rooms[c.room.id] == c.room
        && 0 <= c.midx < |c.room.members| && c.room.members[c.midx] == c
    }

    /** The connections `open` are where they say they are, and the rooms list nobody else. */
    ghost predicate ListsOf(open: set<Conn>)
      reads this, rooms.Values, open, set c | c in open :: c.room
    {
      RoomsOk(open) && forall c | c in open :: Listed(c)
    }

    ghost predicate Valid()
      reads this, rooms.Values, conns, set c | c in conns :: c.room
    {
      ListsOf(conns)
    }

    constructor ()
      ensures Valid() && conns == {} && accepted == [] && rooms == map[]
    {
      rooms, conns, accepted := map[], {}, [];
    }

    /** The list of a room is the set of the open connections that are in it, without repetition:
        swap-remove on the list is removal from that set. */
    lemma ListIsSet(k: int)
      requires Valid()
      ensures forall c | c in conns :: At(c) == In(k) <==> k in rooms && c in rooms[k].members
      ensures k in rooms ==> forall c | c in rooms[k].members :: c in conns
      ensures k in rooms ==> forall i, j | 0 <= i < j < |rooms[k].members| :: rooms[k].members[i] != rooms[k].members[j]
    {
    }

    method RoomAdd(r: Room, c: Conn)
      modifies c`midx, r`members
      ensures c.midx == |old(r.members)| && r.members == old(r.members) + [c]
    {
      c.midx := |r.members|;
      r.members := r.members + [c];
    }

    method RoomRemove(r: Room, c: Conn)
      modifies r`members, c`midx, r.members`midx
      ensures var i, last := old(c.midx), |old(r.members)| - 1;
              if i < 0 || i > last then
                && r.members == old(r.members) && c.midx == old(c.midx)
                && forall d | d in old(r.members) :: d.midx == old(d.midx)
              else
                && r.members == old(r.members)[i := old(r.members)[last]][..last]
                && c.midx == -1
                && forall d | d in old(r.members) && d != c ::
                     d.midx == if d == old(r.members)[last] then i else old(d.midx)
    {
      var i, last := c.midx, |r.members| - 1;
      if i < 0 || i > last { return; }
      r.members := r.members[i := r.members[last]];
      r.members[i].midx := i;
      r.members := r.members[..last];
      c.midx := -1;
    }

    /** Leaves the room it is in, if any; `c.room` is left to the caller. */
    method Leave(c: Conn)
      requires Valid() && c in conns
      modifies c`midx, rooms.Values`members, conns`midx
      ensures ListsOf(conns - {c})
    {
      if c.room != null {
        ghost var r := c.room;
        ghost var was, i, last := r.members, c.midx, |r.members| - 1;
        RoomRemove(c.room, c);
        assert forall k | 0 <= k < last :: r.members[k] == was[if k == i then last else k];
      }
    }

    method GetRoom(id: int, ghost open: set<Conn>) returns (r: Room)
      requires ListsOf(open)
      modifies `rooms
      ensures ListsOf(open) && id in rooms && rooms[id] == r && r.id == id
      ensures rooms == old(rooms) || (rooms == old(rooms)[id := r] && fresh(r))
    {
      if id in rooms { return rooms[id]; }
      r := new Room(id);
      rooms := rooms[id := r];
    }

    method HandleJoin(c: Conn, id: int, pid: int)
      requires Valid() && c in conns
      modifies `rooms, conns, rooms.Values
      ensures Valid() && At(c) == In(id) && c.pid == pid
      ensures forall d | d in conns && d != c :: At(d) == old(At(d))
      ensures forall r | r in rooms.Values :: r in old(rooms.Values) || fresh(r)
    {
      hide ListsOf;
      Leave(c);
      var r := GetRoom(id, conns - {c});
      c.pid := pid;
      Enter(c, r);
    }

    method Enter(c: Conn, r: Room)
      requires ListsOf(conns - {c}) && c in conns && r.id in rooms && rooms[r.id] == r
      modifies c`room, c`midx, r`members
      ensures Valid() && c.room == r
    {
      c.room := r;
      RoomAdd(r, c);
      forall d | d in conns ensures Listed(d) {
        if d != c { assert old(Listed(d)); }
      }
    }

    method CloseConn(c: Conn)
      requires Valid() && c in conns
      modifies `conns, conns, rooms.Values
      ensures Valid() && conns == old(conns) - {c}
      ensures forall d | d in conns :: At(d) == old(At(d))
    {
      Leave(c);
      conns := conns - {c};
    }

    method AcceptConn() returns (c: Conn)
      requires Valid()
      modifies `conns, `accepted
      ensures Valid() && fresh(c) && conns == old(conns) + {c} && accepted == old(accepted) + [c] && At(c) == Nowhere
    {
      c := new Conn();
      conns := conns + {c};
      accepted := accepted + [c];
    }

    /** The worker's state is what the history says. */
    ghost predicate Agrees(es: seq<Event>)
      reads this, conns
    {
      && |accepted| == Accepted(es)
      && (forall i, j | 0 <= i < j < |accepted| :: accepted[i] != accepted[j])
      && (forall c | c in conns :: c in accepted)
      && (forall i | 0 <= i < |accepted| && Open(es, i) :: accepted[i] in conns && At(accepted[i]) == PlaceOf(es, i))
      && (forall i | 0 <= i < |accepted| && accepted[i] in conns :: Open(es, i))
    }

    method Handle(e: Event, ghost es: seq<Event>)
      requires Valid() && Agrees(es) && Possible(es) && (e.Accept? || Open(es, e.conn))
      modifies this, conns, rooms.Values
      ensures Valid() && Agrees(es + [e])
      ensures forall c | c in conns && c !in old(conns) :: fresh(c)
      ensures forall r | r in rooms.Values :: r in old(rooms.Values) || fresh(r)
    {
      hide Valid, At, Possible, PlaceOf, Accepted;
      HistoryStep(es, e);
      match e
      case Accept => var _ := AcceptConn();
      case Join(i, room, pid) => HandleJoin(accepted[i], room, pid);
      case Close(i) => CloseConn(accepted[i]);
    }
  }

  /** After any run, with second JOINs and closes as they come, each room lists exactly the open
      connections whose last JOIN named it. */
  method Run(es: seq<Event>) returns (w: Worker)
    requires Possible(es)
    ensures w.Valid() && w.Agrees(es)
    ensures forall k, i: nat | Open(es, i) && i < |w.accepted| ::
              PlaceOf(es, i) == In(k) <==> k in w.rooms && w.accepted[i] in w.rooms[k].members
    ensures forall k, c | k in w.rooms && c in w.rooms[k].members ::
              exists i: nat | i < |w.accepted| :: w.accepted[i] == c && Open(es, i)
  {
    hide Worker.Valid, Worker.Agrees, Possible;
    w := new Worker();
    Start(w);
    for n := 0 to |es|
      invariant fresh(w) && w.Valid() && w.Agrees(es[..n])
      invariant forall c | c in w.conns :: fresh(c)
      invariant forall r | r in w.rooms.Values :: fresh(r)
    {
      PossibleUpTo(es, n);
      assert es[..n + 1] == es[..n] + [es[n]];
      w.Handle(es[n], es[..n]);
    }
    assert es[..|es|] == es;
    Roster(w, es);
  }

  lemma Start(w: Worker)
    requires w.conns == {} && w.accepted == []
    ensures w.Agrees([])
  {
  }

  lemma PossibleUpTo(es: seq<Event>, n: nat)
    requires Possible(es) && n < |es|
    ensures Possible(es[..n]) && (es[n].Accept? || Open(es[..n], es[n].conn))
  {
    assert forall k | 0 <= k < n :: es[..n][..k] == es[..k];
  }

  lemma Roster(w: Worker, es: seq<Event>)
    requires w.Valid() && w.Agrees(es)
    ensures forall k, i: nat | Open(es, i) && i < |w.accepted| ::
              PlaceOf(es, i) == In(k) <==> k in w.rooms && w.accepted[i] in w.rooms[k].members
    ensures forall k, c | k in w.rooms && c in w.rooms[k].members ::
              exists i: nat | i < |w.accepted| :: w.accepted[i] == c && Open(es, i)
  {
    hide Worker.Valid, Open, PlaceOf;
    forall k ensures forall c | c in w.conns :: At(c) == In(k) <==> k in w.rooms && c in w.rooms[k].members {
      w.ListIsSet(k);
    }
    forall k, c | k in w.rooms && c in w.rooms[k].members
      ensures exists i: nat | i < |w.accepted| :: w.accepted[i] == c && Open(es, i)
    {
      w.ListIsSet(k);
      var i :| 0 <= i < |w.accepted| && w.accepted[i] == c;
    }
  }

  lemma HistoryStep(es: seq<Event>, e: Event)
    requires Possible(es)
    ensures Accepted(es + [e]) == Accepted(es) + if e.Accept? then 1 else 0
    ensures forall i: nat :: PlaceOf(es + [e], i) ==
              if !e.Accept? && e.conn == i then (if e.Join? then In(e.room) else Nowhere) else PlaceOf(es, i)
    ensures forall i: nat | i < Accepted(es) :: Open(es + [e], i) <==> Open(es, i) && e != Close(i)
    ensures e.Accept? ==> PlaceOf(es, Accepted(es)) == Nowhere && Open(es + [e], Accepted(es))
  {
    NothingYet(es, Accepted(es));
    assert (es + [e])[..|es|] == es;
  }

  lemma {:induction false} NothingYet(es: seq<Event>, i: nat)
    requires Possible(es) && Accepted(es) <= i
    ensures PlaceOf(es, i) == Nowhere && Close(i) !in es
  {
    if es != [] {
      var m := |es| - 1;
      assert forall k | 0 <= k < m :: es[..m][..k] == es[..k];
      NothingYet(es[..m], i);
      assert es[m].Accept? || Open(es[..m], es[m].conn);
    }
  }
}
