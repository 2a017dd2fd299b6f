/** The allocating server (servers/go): every broadcast is a fresh byte slice, so a frame is
    a value. Rooms, readers and writers take atomic steps in any order; an action names the
    agent and fixes every choice the runtime makes. This machine is the specification that
    the pooled server is shown to refine. */
module GoServer {
  import opened Wire
  import opened Room

  const SEND_CAP := 64

  datatype WriterPc = WIdle | Writing(frame: Bytes, pos: nat) | WExited
  datatype ReaderPc = RIdle | RSend(frame: Bytes)
  datatype RoomPc = Idle | Sending(frame: Bytes, todo: seq<nat>)

  /** `out` is everything handed to the socket so far. */
  datatype Conn = Conn(chan: seq<Bytes>, writer: WriterPc, reader: ReaderPc, out: Bytes, drops: nat)
  datatype RoomAgent = RoomAgent(id: int, game: Game, pc: RoomPc)
  datatype State = State(conns: seq<Conn>, rooms: seq<RoomAgent>, nextPid: int)

  const INIT := State([], [], 0)
  const FRESH_CONN := Conn([], WIdle, RIdle, [], 0)

  /** How a buffer is obtained by the pooled server; the allocating server ignores it. */
  datatype Source = New(bytes: Bytes) | Recycled(b: nat, stale: Bytes)

  datatype Action =
    | Accept
    | NewRoom(id: int)
    | Join(r: nat, c: nat)
    | Move(r: nat, pid: int, lastSeq: int, dx: int, dy: int)
    | Leave(r: nat, pid: int)
    | Tick(r: nat, order: seq<int>, dests: seq<int>)
    | SendOrDrop(r: nat)
    | SendJoined(c: nat)
    | WriteTake(c: nat)
    | WriteSome(c: nat, k: nat)
    | WriteEnd(c: nat, failed: bool)
    | WriteQuit(c: nat)
      // steps only the pooled server takes
    | RoomGet(r: nat, src: Source)
    | RoomFill(r: nat, k: nat)
    | RoomStore(r: nat)
    | RoomRelease(r: nat)
    | RoomPut(r: nat)
    | ReadGet(c: nat, src: Source)
    | ReadFill(c: nat, k: nat)
    | ReadStore(c: nat)
    | WriteRelease(c: nat)
    | WritePut(c: nat)
    | Collect(b: nat)


  function NextPid(pid: int): int { (pid + 1) % TWO32 }

  function JoinedFrame(pid: int, room: int): Bytes { Frame(JoinedPayload(pid, room)) }

  function AfterSend(frame: Bytes, todo: seq<nat>): RoomPc
  {
    if todo == [] then Idle else Sending(frame, todo)
  }

  predicate Enabled(s: State, a: Action)
  {
    match a
    case Accept => true
    case NewRoom(_) => true
    case Join(r, c) => r < |s.rooms| && c < |s.conns| && s.rooms[r].pc == Idle && s.conns[c].reader == RIdle
    case Move(r, _, _, _, _) => r < |s.rooms| && s.rooms[r].pc == Idle
    case Leave(r, _) => r < |s.rooms| && s.rooms[r].pc == Idle
    case Tick(r, order, dests) =>
      r < |s.rooms| && s.rooms[r].pc == Idle && Visits(order, s.rooms[r].game.players.Keys)
        && Visits(dests, s.rooms[r].game.conns.Keys)
    case SendOrDrop(r) =>
      r < |s.rooms| && s.rooms[r].pc.Sending? && s.rooms[r].pc.todo != [] && s.rooms[r].pc.todo[0] < |s.conns|
    case SendJoined(c) => c < |s.conns| && s.conns[c].reader.RSend? && |s.conns[c].chan| < SEND_CAP
    case WriteTake(c) => c < |s.conns| && s.conns[c].writer == WIdle && s.conns[c].chan != []
    case WriteSome(c, k) =>
      c < |s.conns| && s.conns[c].writer.Writing? && s.conns[c].writer.pos + k <= |s.conns[c].writer.frame|
    case WriteEnd(c, failed) =>
      c < |s.conns| && s.conns[c].writer.Writing? && (failed || s.conns[c].writer.pos == |s.conns[c].writer.frame|)
    case WriteQuit(c) => c < |s.conns| && s.conns[c].writer == WIdle
    case _ => true
  }

  function WithGame(s: State, r: nat, g: Game): State
    requires r < |s.rooms|
  {
    s.(rooms := s.rooms[r := s.rooms[r].(game := g)])
  }

  function Apply(s: State, a: Action): State
    requires Enabled(s, a)
  {
    match a
    case Accept => s.(conns := s.conns + [FRESH_CONN])
    case NewRoom(id) => s.(rooms := s.rooms + [RoomAgent(id, EMPTY_GAME, Idle)])
    case Join(r, c) =>
      var pid := NextPid(s.nextPid);
      WithGame(s, r, Joined(s.rooms[r].game, pid, c))
      .(conns := s.conns[c := s.conns[c].(reader := RSend(JoinedFrame(pid, s.rooms[r].id)))], nextPid := pid)
    case Move(r, pid, q, dx, dy) => WithGame(s, r, Moved(s.rooms[r].game, pid, q, dx, dy))
    case Leave(r, pid) => WithGame(s, r, Left(s.rooms[r].game, pid))
    case Tick(r, order, dests) =>
      var g := Ticked(s.rooms[r].game);
      s.(rooms := s.rooms[r := s.rooms[r].(game := g, pc := AfterSend(SnapshotFrame(g, order), Recipients(g, dests)))])
    case SendOrDrop(r) =>
      var pc := s.rooms[r].pc;
      var c := pc.todo[0];
      var conn := s.conns[c];
      var conn' :=
        if |conn.chan| < SEND_CAP then conn.(chan := conn.chan + [pc.frame])
        else conn.(drops := conn.drops + 1);
      s.(rooms := s.rooms[r := s.rooms[r].(pc := AfterSend(pc.frame, pc.todo[1..]))], conns := s.conns[c := conn'])
    case SendJoined(c) =>
      var conn := s.conns[c];
      s.(conns := s.conns[c := conn.(chan := conn.chan + [conn.reader.frame], reader := RIdle)])
    case WriteTake(c) =>
      var conn := s.conns[c];
      s.(conns := s.conns[c := conn.(chan := conn.chan[1..], writer := Writing(conn.chan[0], 0))])
    case WriteSome(c, k) =>
      var conn := s.conns[c];
      var w := conn.writer;
      s.(conns := s.conns[c := conn.(out := conn.out + w.frame[w.pos..w.pos + k], writer := w.(pos := w.pos + k))])
    case WriteEnd(c, failed) =>
      s.(conns := s.conns[c := s.conns[c].(writer := if failed then WExited else WIdle)])
    case WriteQuit(c) => s.(conns := s.conns[c := s.conns[c].(writer := WExited)])
    case _ => s
  }
}
