/** The pooled server (servers/go-pool): broadcast buffers come from a shared pool and carry a
    reference count; the holder that drops it to zero puts the buffer back. Every atomic step
    of rooms, readers and writers is an action; `release` is two steps, a decrement and a put. */
module Pool {
  import opened Wire
  import opened Room
  import G = GoServer

  datatype WriterPc =
    | WIdle
    | Writing(b: nat, pos: nat)
    | WRelease(b: nat, failed: bool)
    | WPut(b: nat, failed: bool)
    | WExited

  datatype ReaderPc =
    | RIdle
    | RWant(frame: Bytes)
    | RFill(b: nat, frame: Bytes, off: nat)
    | RSend(b: nat)

  datatype RoomPc =
    | Idle
    | Want(frame: Bytes, nconns: nat, todo: seq<nat>)
    | Fill(b: nat, frame: Bytes, off: nat, nconns: nat, todo: seq<nat>)
    | Send(b: nat, todo: seq<nat>)
    | Release(b: nat, todo: seq<nat>)
    | PutBack(b: nat, todo: seq<nat>)

  datatype Conn = Conn(chan: seq<nat>, writer: WriterPc, reader: ReaderPc, out: Bytes, drops: nat)
  datatype RoomAgent = RoomAgent(id: int, game: Game, pc: RoomPc)

  /** A buffer: its bytes and count, how many times it is in the pool (a double put would show
      as 2), whether the runtime threw it away while pooled, and its life so far: how often it
      was handed out, how often its count reached zero, how often it was put back. */
  datatype Buf = Buf(bytes: Bytes, ref: int, pooled: nat, gone: bool, gets: nat, zeros: nat, puts: nat)

  datatype State = State(conns: seq<Conn>, rooms: seq<RoomAgent>, mem: seq<Buf>, nextPid: int)

  const INIT := State([], [], [], 0)
  const FRESH_CONN := Conn([], WIdle, RIdle, [], 0)

  // ---- memory ----

  function At(mem: seq<Buf>, b: nat): Buf { if b < |mem| then mem[b] else Buf([], 0, 0, false, 0, 0, 0) }
  function Set(mem: seq<Buf>, b: nat, x: Buf): seq<Buf> { if b < |mem| then mem[b := x] else mem }

  function Overwrite(bytes: Bytes, off: nat, data: Bytes): Bytes
  {
    if off + |data| <= |bytes| then bytes[..off] + data + bytes[off + |data|..] else bytes
  }

  /** getBuf(n): a fresh buffer, or any pooled one, with `n` bytes of arbitrary content. */
  predicate CanGet(s: State, src: G.Source, n: nat)
  {
    match src
    case New(bytes) => |bytes| == n
    case Recycled(b, stale) => At(s.mem, b).pooled > 0 && |stale| == n
  }

  function Target(s: State, src: G.Source): nat
  {
    match src case New(_) => |s.mem| case Recycled(b, _) => b
  }

  function Get(s: State, src: G.Source): State
    requires src.Recycled? ==> At(s.mem, src.b).pooled > 0
  {
    match src
    case New(bytes) => s.(mem := s.mem + [Buf(bytes, 0, 0, false, 1, 0, 0)])
    case Recycled(b, stale) =>
      var x := At(s.mem, b);
      s.(mem := Set(s.mem, b, x.(bytes := stale, gets := x.gets + 1, pooled := x.pooled - 1)))
  }

  function Copy(s: State, b: nat, frame: Bytes, off: nat, k: nat): State
    requires off + k <= |frame|
  {
    var x := At(s.mem, b);
    s.(mem := Set(s.mem, b, x.(bytes := Overwrite(x.bytes, off, frame[off..off + k]))))
  }

  function Store(s: State, b: nat, n: int): State
  {
    s.(mem := Set(s.mem, b, At(s.mem, b).(ref := n)))
  }

  function Decrement(s: State, b: nat): State
  {
    var x := At(s.mem, b);
    s.(mem := Set(s.mem, b, x.(ref := x.ref - 1, zeros := x.zeros + if x.ref == 1 then 1 else 0)))
  }

  function Put(s: State, b: nat): State
  {
    var x := At(s.mem, b);
    s.(mem := Set(s.mem, b, x.(puts := x.puts + 1, pooled := x.pooled + 1)))
  }

  // ---- steps ----

  function AfterSend(b: nat, todo: seq<nat>): RoomPc { if todo == [] then Idle else Send(b, todo) }
  function AfterWrite(failed: bool): WriterPc { if failed then WExited else WIdle }

  function SetPc(s: State, r: nat, pc: RoomPc): State
    requires r < |s.rooms|
  {
    s.(rooms := s.rooms[r := s.rooms[r].(pc := pc)])
  }

  function SetWriter(s: State, c: nat, w: WriterPc): State
    requires c < |s.conns|
  {
    s.(conns := s.conns[c := s.conns[c].(writer := w)])
  }

  function SetReader(s: State, c: nat, x: ReaderPc): State
    requires c < |s.conns|
  {
    s.(conns := s.conns[c := s.conns[c].(reader := x)])
  }

  function WithGame(s: State, r: nat, g: Game): State
    requires r < |s.rooms|
  {
    s.(rooms := s.rooms[r := s.rooms[r].(game := g)])
  }

  // the room

  predicate RoomIdle(s: State, r: nat) { r < |s.rooms| && s.rooms[r].pc == Idle }

  function Broadcast(s: State, r: nat, g: Game, frame: Bytes, dests: seq<nat>): State
    requires r < |s.rooms|
  {
    var pc := if |g.conns| == 0 then Idle else Want(frame, |g.conns|, dests);
    s.(rooms := s.rooms[r := s.rooms[r].(game := g, pc := pc)])
  }

  predicate CanRoomGet(s: State, r: nat, src: G.Source)
  {
    r < |s.rooms| && s.rooms[r].pc.Want? && CanGet(s, src, |s.rooms[r].pc.frame|)
  }

  function RoomGet(s: State, r: nat, src: G.Source): State
    requires CanRoomGet(s, r, src)
  {
    var pc := s.rooms[r].pc;
    SetPc(Get(s, src), r, Fill(Target(s, src), pc.frame, 0, pc.nconns, pc.todo))
  }

  predicate CanRoomFill(s: State, r: nat, k: nat)
  {
    r < |s.rooms| && s.rooms[r].pc.Fill? && s.rooms[r].pc.off + k <= |s.rooms[r].pc.frame|
  }

  function RoomFill(s: State, r: nat, k: nat): State
    requires CanRoomFill(s, r, k)
  {
    var pc := s.rooms[r].pc;
    SetPc(Copy(s, pc.b, pc.frame, pc.off, k), r, pc.(off := pc.off + k))
  }

  predicate CanRoomStore(s: State, r: nat)
  {
    r < |s.rooms| && s.rooms[r].pc.Fill? && s.rooms[r].pc.off == |s.rooms[r].pc.frame|
  }

  function RoomStore(s: State, r: nat): State
    requires CanRoomStore(s, r)
  {
    var pc := s.rooms[r].pc;
    SetPc(Store(s, pc.b, pc.nconns), r, AfterSend(pc.b, pc.todo))
  }

  predicate CanSend(s: State, r: nat)
  {
    r < |s.rooms| && s.rooms[r].pc.Send? && s.rooms[r].pc.todo != [] && s.rooms[r].pc.todo[0] < |s.conns|
  }

  function SendTo(s: State, c: nat, b: nat): State
    requires c < |s.conns|
  {
    s.(conns := s.conns[c := s.conns[c].(chan := s.conns[c].chan + [b])])
  }

  function DropAt(s: State, c: nat): State
    requires c < |s.conns|
  {
    s.(conns := s.conns[c := s.conns[c].(drops := s.conns[c].drops + 1)])
  }

  function SendOrDrop(s: State, r: nat): State
    requires CanSend(s, r)
  {
    var pc := s.rooms[r].pc;
    var c := pc.todo[0];
    if |s.conns[c].chan| < G.SEND_CAP then SetPc(SendTo(s, c, pc.b), r, AfterSend(pc.b, pc.todo[1..]))
    else SetPc(DropAt(s, c), r, Release(pc.b, pc.todo[1..]))
  }

  predicate CanRoomRelease(s: State, r: nat) { r < |s.rooms| && s.rooms[r].pc.Release? }

  function RoomRelease(s: State, r: nat): State
    requires CanRoomRelease(s, r)
  {
    var pc := s.rooms[r].pc;
    SetPc(Decrement(s, pc.b), r, if At(s.mem, pc.b).ref == 1 then PutBack(pc.b, pc.todo) else AfterSend(pc.b, pc.todo))
  }

  predicate CanRoomPut(s: State, r: nat) { r < |s.rooms| && s.rooms[r].pc.PutBack? }

  function RoomPut(s: State, r: nat): State
    requires CanRoomPut(s, r)
  {
    var pc := s.rooms[r].pc;
    SetPc(Put(s, pc.b), r, AfterSend(pc.b, pc.todo))
  }

  // the reader, acknowledging a JOIN

  predicate CanReadGet(s: State, c: nat, src: G.Source)
  {
    c < |s.conns| && s.conns[c].reader.RWant? && CanGet(s, src, |s.conns[c].reader.frame|)
  }

  function ReadGet(s: State, c: nat, src: G.Source): State
    requires CanReadGet(s, c, src)
  {
    SetReader(Get(s, src), c, RFill(Target(s, src), s.conns[c].reader.frame, 0))
  }

  predicate CanReadFill(s: State, c: nat, k: nat)
  {
    c < |s.conns| && s.conns[c].reader.RFill? && s.conns[c].reader.off + k <= |s.conns[c].reader.frame|
  }

  function ReadFill(s: State, c: nat, k: nat): State
    requires CanReadFill(s, c, k)
  {
    var x := s.conns[c].reader;
    SetReader(Copy(s, x.b, x.frame, x.off, k), c, x.(off := x.off + k))
  }

  predicate CanReadStore(s: State, c: nat)
  {
    c < |s.conns| && s.conns[c].reader.RFill? && s.conns[c].reader.off == |s.conns[c].reader.frame|
  }

  function ReadStore(s: State, c: nat): State
    requires CanReadStore(s, c)
  {
    SetReader(Store(s, s.conns[c].reader.b, 1), c, RSend(s.conns[c].reader.b))
  }

  predicate CanSendJoined(s: State, c: nat)
  {
    c < |s.conns| && s.conns[c].reader.RSend? && |s.conns[c].chan| < G.SEND_CAP
  }

  function SendJoined(s: State, c: nat): State
    requires CanSendJoined(s, c)
  {
    SetReader(SendTo(s, c, s.conns[c].reader.b), c, RIdle)
  }

  // the writer

  predicate CanWriteTake(s: State, c: nat) { c < |s.conns| && s.conns[c].writer == WIdle && s.conns[c].chan != [] }

  function WriteTake(s: State, c: nat): State
    requires CanWriteTake(s, c)
  {
    var conn := s.conns[c];
    s.(conns := s.conns[c := conn.(chan := conn.chan[1..], writer := Writing(conn.chan[0], 0))])
  }

  predicate CanWriteSome(s: State, c: nat, k: nat)
  {
    c < |s.conns| && s.conns[c].writer.Writing? && s.conns[c].writer.pos + k <= |At(s.mem, s.conns[c].writer.b).bytes|
  }

  function WriteSome(s: State, c: nat, k: nat): State
    requires CanWriteSome(s, c, k)
  {
    var conn := s.conns[c];
    var w := conn.writer;
    s.(conns := s.conns[c := conn.(out := conn.out + At(s.mem, w.b).bytes[w.pos..w.pos + k],
      writer := w.(pos := w.pos + k))])
  }

  predicate CanWriteEnd(s: State, c: nat, failed: bool)
  {
    c < |s.conns| && s.conns[c].writer.Writing?
    && (failed || s.conns[c].writer.pos == |At(s.mem, s.conns[c].writer.b).bytes|)
  }

  function WriteEnd(s: State, c: nat, failed: bool): State
    requires CanWriteEnd(s, c, failed)
  {
    SetWriter(s, c, WRelease(s.conns[c].writer.b, failed))
  }

  predicate CanWriteRelease(s: State, c: nat) { c < |s.conns| && s.conns[c].writer.WRelease? }

  function WriteRelease(s: State, c: nat): State
    requires CanWriteRelease(s, c)
  {
    var w := s.conns[c].writer;
    SetWriter(Decrement(s, w.b), c, if At(s.mem, w.b).ref == 1 then WPut(w.b, w.failed) else AfterWrite(w.failed))
  }

  predicate CanWritePut(s: State, c: nat) { c < |s.conns| && s.conns[c].writer.WPut? }

  function WritePut(s: State, c: nat): State
    requires CanWritePut(s, c)
  {
    SetWriter(Put(s, s.conns[c].writer.b), c, AfterWrite(s.conns[c].writer.failed))
  }

  predicate CanCollect(s: State, b: nat) { At(s.mem, b).pooled > 0 }

  function Collect(s: State, b: nat): State
    requires CanCollect(s, b)
  {
    s.(mem := Set(s.mem, b, At(s.mem, b).(pooled := At(s.mem, b).pooled - 1, gone := true)))
  }

  // all together

  predicate Enabled(s: State, a: G.Action)
  {
    match a
    case Accept => true
    case NewRoom(_) => true
    case Join(r, c) => RoomIdle(s, r) && c < |s.conns| && s.conns[c].reader == RIdle
    case Move(r, _, _, _, _) => RoomIdle(s, r)
    case Leave(r, _) => RoomIdle(s, r)
    case Tick(r, order, dests) =>
      RoomIdle(s, r) && Visits(order, s.rooms[r].game.players.Keys) && Visits(dests, s.rooms[r].game.conns.Keys)
    case RoomGet(r, src) => CanRoomGet(s, r, src)
    case RoomFill(r, k) => CanRoomFill(s, r, k)
    case RoomStore(r) => CanRoomStore(s, r)
    case SendOrDrop(r) => CanSend(s, r)
    case RoomRelease(r) => CanRoomRelease(s, r)
    case RoomPut(r) => CanRoomPut(s, r)
    case ReadGet(c, src) => CanReadGet(s, c, src)
    case ReadFill(c, k) => CanReadFill(s, c, k)
    case ReadStore(c) => CanReadStore(s, c)
    case SendJoined(c) => CanSendJoined(s, c)
    case WriteTake(c) => CanWriteTake(s, c)
    case WriteSome(c, k) => CanWriteSome(s, c, k)
    case WriteEnd(c, failed) => CanWriteEnd(s, c, failed)
    case WriteRelease(c) => CanWriteRelease(s, c)
    case WritePut(c) => CanWritePut(s, c)
    case WriteQuit(c) => c < |s.conns| && s.conns[c].writer == WIdle
    case Collect(b) => CanCollect(s, b)
  }

  function Apply(s: State, a: G.Action): State
    requires Enabled(s, a)
  {
    match a
    case Accept => s.(conns := s.conns + [FRESH_CONN])
    case NewRoom(id) => s.(rooms := s.rooms + [RoomAgent(id, EMPTY_GAME, Idle)])
    case Join(r, c) =>
      var pid := G.NextPid(s.nextPid);
      SetReader(WithGame(s, r, Joined(s.rooms[r].game, pid, c)), c, RWant(G.JoinedFrame(pid, s.rooms[r].id)))
      .(nextPid := pid)
    case Move(r, pid, q, dx, dy) => WithGame(s, r, Moved(s.rooms[r].game, pid, q, dx, dy))
    case Leave(r, pid) => WithGame(s, r, Left(s.rooms[r].game, pid))
    case Tick(r, order, dests) =>
      var g := Ticked(s.rooms[r].game);
      Broadcast(s, r, g, SnapshotFrame(g, order), Recipients(g, dests))
    case RoomGet(r, src) => RoomGet(s, r, src)
    case RoomFill(r, k) => RoomFill(s, r, k)
    case RoomStore(r) => RoomStore(s, r)
    case SendOrDrop(r) => SendOrDrop(s, r)
    case RoomRelease(r) => RoomRelease(s, r)
    case RoomPut(r) => RoomPut(s, r)
    case ReadGet(c, src) => ReadGet(s, c, src)
    case ReadFill(c, k) => ReadFill(s, c, k)
    case ReadStore(c) => ReadStore(s, c)
    case SendJoined(c) => SendJoined(s, c)
    case WriteTake(c) => WriteTake(s, c)
    case WriteSome(c, k) => WriteSome(s, c, k)
    case WriteEnd(c, failed) => WriteEnd(s, c, failed)
    case WriteRelease(c) => WriteRelease(s, c)
    case WritePut(c) => WritePut(s, c)
    case WriteQuit(c) => SetWriter(s, c, WExited)
    case Collect(b) => Collect(s, b)
  }

  // ---- who holds what ----

  /** An agent's stake in one buffer: references it still has to release, whether it is
      filling it, whether it is about to put it back. */
  datatype Stake = Stake(held: nat, filling: nat, putting: nat)

  const NO_STAKE := Stake(0, 0, 0)

  function Plus(a: Stake, b: Stake): Stake { Stake(a.held + b.held, a.filling + b.filling, a.putting + b.putting) }
  function Holding(yes: bool, n: nat): Stake { Stake(if yes then n else 0, 0, 0) }
  function Filling(yes: bool): Stake { Stake(0, if yes then 1 else 0, 0) }
  function Putting(yes: bool): Stake { Stake(0, 0, if yes then 1 else 0) }

  function WriterStake(w: WriterPc, b: nat): Stake
  {
    match w
    case Writing(x, _) => Holding(x == b, 1)
    case WRelease(x, _) => Holding(x == b, 1)
    case WPut(x, _) => Putting(x == b)
    case _ => NO_STAKE
  }

  function ReaderStake(r: ReaderPc, b: nat): Stake
  {
    match r
    case RFill(x, _, _) => Filling(x == b)
    case RSend(x) => Holding(x == b, 1)
    case _ => NO_STAKE
  }

  function Count(chan: seq<nat>, b: nat): nat
  {
    if chan == [] then 0 else One(chan[0] == b) + Count(chan[1..], b)
  }

  function ConnStake(c: Conn, b: nat): Stake
  {
    var w, r := WriterStake(c.writer, b), ReaderStake(c.reader, b);
    Stake(Count(c.chan, b) + w.held + r.held, w.filling + r.filling, w.putting + r.putting)
  }

  function RoomStake(pc: RoomPc, b: nat): Stake
  {
    match pc
    case Fill(x, _, _, _, _) => Filling(x == b)
    case Send(x, todo) => Holding(x == b, |todo|)
    case Release(x, todo) => Holding(x == b, |todo| + 1)
    case PutBack(x, _) => Putting(x == b)
    case _ => NO_STAKE
  }

  function Total<T>(xs: seq<T>, stake: T -> Stake): Stake
  {
    if xs == [] then NO_STAKE else Plus(Total(xs[..|xs| - 1], stake), stake(xs[|xs| - 1]))
  }

  function ConnStakeIn(b: nat): Conn -> Stake { (c: Conn) => ConnStake(c, b) }
  function RoomStakeIn(b: nat): RoomAgent -> Stake { (r: RoomAgent) => RoomStake(r.pc, b) }

  function Stakes(s: State, b: nat): Stake
  {
    Plus(Total(s.conns, ConnStakeIn(b)), Total(s.rooms, RoomStakeIn(b)))
  }

  function One(p: bool): nat { if p then 1 else 0 }

  /** The count equals the outstanding references, and the buffer is in exactly one place:
      pooled, discarded, being filled, about to be put back, or referenced. */
  predicate BufOk(x: Buf, st: Stake)
  {
    && x.ref == st.held
    && x.pooled + One(x.gone) + st.filling + st.putting + One(st.held > 0) == 1
    && x.gets == x.puts + st.filling + st.putting + One(st.held > 0)
    && x.zeros == x.puts + st.putting
  }

  ghost predicate MemOk(s: State)
  {
    && (forall b: nat | b < |s.mem| :: BufOk(s.mem[b], Stakes(s, b)))
    && (forall b: nat | b >= |s.mem| :: Stakes(s, b) == NO_STAKE)
  }

  /** A buffer under construction has the frame's length and its first `off` bytes. */
  predicate Partial(mem: seq<Buf>, b: nat, frame: Bytes, off: nat)
  {
    var bytes := At(mem, b).bytes;
    off <= |frame| == |bytes| && bytes[..off] == frame[..off]
  }

  predicate ConnOk(mem: seq<Buf>, c: Conn)
  {
    c.reader.RFill? ==> Partial(mem, c.reader.b, c.reader.frame, c.reader.off)
  }

  predicate RoomOk(mem: seq<Buf>, r: RoomAgent)
  {
    match r.pc
    case Want(_, n, todo) => |todo| == n && n > 0
    case Fill(b, frame, off, n, todo) => Partial(mem, b, frame, off) && |todo| == n && n > 0
    case Send(_, todo) => todo != []
    case PutBack(_, todo) => todo == []
    case _ => true
  }

  ghost predicate Inv(s: State)
  {
    && MemOk(s)
    && (forall i | 0 <= i < |s.conns| :: ConnOk(s.mem, s.conns[i]))
    && (forall i | 0 <= i < |s.rooms| :: RoomOk(s.mem, s.rooms[i]))
  }
}
