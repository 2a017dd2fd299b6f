/** One connection as the epoll reactor (servers/go-epoll) sees it: the player, the room it is in,
    and its outbound queue; and what each event does to it. */
module Peers {
  import opened Wire
  import O = Outbound

  datatype Place = Nowhere | In(room: int)

  datatype Peer = Peer(
    pid: int, place: Place, x: int, y: int, vx: int, vy: int, lastSeq: int, o: O.Out)

  function Accepted(script: seq<O.WriteResult>): Peer
  {
    Peer(0, Nowhere, 0, 0, 0, 0, 0, O.FRESH.(script := script))
  }

  /** A closed connection is in no room. */
  function Leaving(p: Peer, o: O.Out): Peer
  {
    p.(o := o, place := if o.closed then Nowhere else p.place)
  }

  /** A frame is admitted, shed, or finds the connection broken and closes it. */
  function Offer(p: Peer, frame: Bytes): Peer { Leaving(p, O.Enqueue(p.o, frame)) }

  function Flushed(p: Peer): Peer { Leaving(p, O.Flush(p.o)) }

  function Closed(p: Peer): Peer { Leaving(p, p.o.(closed := true)) }

  predicate IsJoin(payload: Bytes) { |payload| >= 5 && payload[0] == MSG_JOIN }

  predicate IsMove(payload: Bytes) { |payload| >= 9 && payload[0] == MSG_MOVE }

  /** One dispatched payload; what is too short or of another kind is ignored. */
  function Handle(p: Peer, payload: Bytes, pid: int): Peer
  {
    if IsJoin(payload) then
      var room := Get32(payload, 1);
      Offer(p.(pid := pid, place := In(room)), Frame(JoinedPayload(pid, room)))
    else if IsMove(payload) then
      p.(lastSeq := Get32(payload, 1), vx := AsI16(Get16(payload, 5)), vy := AsI16(Get16(payload, 7)))
    else p
  }

  function Advance(p: Peer): Peer { p.(x := Wrap32(p.x + p.vx), y := Wrap32(p.y + p.vy)) }

  /** The entry of a player in a snapshot. */
  function Shown(p: Peer): Entry { Entry(p.pid, p.x, p.y, p.lastSeq) }

  /** What a tick does to a member that is offered `frame`. */
  function Ticked(p: Peer, frame: Bytes): Peer { Offer(Advance(p), frame) }
}
