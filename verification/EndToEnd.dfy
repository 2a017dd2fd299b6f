/** A worker of the epoll reactor (servers/go-epoll) and its clients, load generators
    (loadgen-odin), as one machine over all interleavings: clients that join one room and then
    move, byte streams in both directions, and the kernel's answers to each write. */
module EndToEnd {
  import opened Wire
  import opened Framing
  import opened Peers
  import opened Sequences
  import SendTimes
  import O = Outbound

  /** A client: the send times of its moves, the ring of send times by sequence number, the payloads
      it sent, and how many bytes it has read. */
  datatype Client = Client(room: int, moves: seq<int>, slots: seq<int>, out: seq<Bytes>, read: nat)

  /** The server's side of the connection: how many payloads it has dispatched, what the reactor
      keeps, and the payloads admitted to the outbound queue. */
  datatype Conn = Conn(handled: nat, p: Peer, acks: seq<Bytes>)

  datatype Link = Link(cl: Client, co: Conn)

  datatype Sys = Sys(ticks: map<int, int>, nextPid: int, links: seq<Link>)

  const INIT := Sys(map[], 0, [])

  /** What the client has parsed out of the bytes it has read so far. */
  function Received(l: Link): seq<Bytes>
  {
    if l.cl.read <= |l.co.p.o.sent| then Feed([], l.co.p.o.sent[..l.cl.read], NEVER).log else []
  }

  predicate IsJoined(l: Link) { exists p | p in Received(l) :: |p| >= 5 && p[0] == MSG_JOINED }

  function TickOf(s: Sys, room: int): int { if room in s.ticks then s.ticks[room] else 0 }

  // ---- the server ----

  /** The payload of a frame that was offered, if it was admitted. */
  function Admitted(before: O.Out, after: O.Out, acks: seq<Bytes>, payload: Bytes): seq<Bytes>
  {
    if |after.admitted| > |before.admitted| then acks + [payload] else acks
  }

  /** What the handler answers to a payload, if anything. */
  function Reply(payload: Bytes, pid: int): Bytes
  {
    if IsJoin(payload) then JoinedPayload(pid, Get32(payload, 1)) else []
  }

  function HandleNext(c: Conn, payload: Bytes, pid: int): Conn
  {
    var p := Handle(c.p, payload, pid);
    Conn(c.handled + 1, p, Admitted(c.p.o, p.o, c.acks, Reply(payload, pid)))
  }

  predicate Present(l: Link, room: int) { l.co.p.place == In(room) }

  /** The entries of a snapshot, in the order of the member list. */
  function Entries(s: Sys, order: seq<nat>): (es: seq<Entry>)
    requires forall i | i in order :: i < |s.links|
    ensures |es| == |order|
  {
    seq(|order|, k requires 0 <= k < |order| => assert order[k] in order; Shown(Advance(s.links[order[k]].co.p)))
  }

  function TickLink(l: Link, room: int, payload: Bytes): Link
  {
    if Present(l, room) then
      var p := Ticked(l.co.p, Frame(payload));
      l.(co := l.co.(p := p, acks := Admitted(l.co.p.o, p.o, l.co.acks, payload)))
    else l
  }

  function TickAll(ls: seq<Link>, room: int, payload: Bytes): (r: seq<Link>)
    ensures |r| == |ls| && forall i | 0 <= i < |ls| :: r[i] == TickLink(ls[i], room, payload)
  {
    seq(|ls|, i requires 0 <= i < |ls| => TickLink(ls[i], room, payload))
  }

  // ---- the machine ----

  /** `Elsewhere` is a JOIN on another worker, which takes a player id. */
  datatype Action =
    | Connect(room: int, script: seq<O.WriteResult>)
    | SendMove(i: nat, now: int)
    | Dispatch(i: nat)
    | Tick(room: int, order: seq<nat>)
    | Writable(i: nat)
    | Read(i: nat, n: nat)
    | Close(i: nat)
    | Elsewhere

  /** The member list of a room, in whatever order removals have left it. */
  predicate Lists(order: seq<nat>, s: Sys, room: int)
  {
    && Distinct(order)
    && (forall i | i in order :: i < |s.links| && Present(s.links[i], room))
    && (forall i | 0 <= i < |s.links| && Present(s.links[i], room) :: i in order)
  }

  /** No counter of 32 bits wraps, and the members of a room fit the 16 bits of a snapshot's count. */
  predicate Enabled(s: Sys, a: Action)
  {
    match a
    case Connect(room, _) => 0 <= room < TWO32
    case SendMove(i, _) => i < |s.links| && IsJoined(s.links[i]) && |s.links[i].cl.moves| + 1 < TWO32
    case Dispatch(i) =>
      i < |s.links| && !s.links[i].co.p.o.closed && s.links[i].co.handled < |s.links[i].cl.out| && s.nextPid + 1 < TWO32
    case Tick(room, order) => 0 < |order| <= 65535 && Lists(order, s, room) && TickOf(s, room) + 1 < TWO32
    case Writable(i) => i < |s.links| && !s.links[i].co.p.o.closed
    case Read(i, n) => i < |s.links| && s.links[i].cl.read + n <= |s.links[i].co.p.o.sent|
    case Close(i) => i < |s.links|
    case Elsewhere => s.nextPid + 1 < TWO32
  }

  /** Stamps the next move in its slot, and sends it. */
  function Moved(l: Link, now: int): Link
  {
    var n := |l.cl.moves| + 1;
    var slots := if |l.cl.slots| == SendTimes.RING then l.cl.slots[n % SendTimes.RING := now] else l.cl.slots;
    l.(cl := l.cl.(moves := l.cl.moves + [now], slots := slots, out := l.cl.out + [MovePayload(n, 1, 0)]))
  }

  function Dispatched(l: Link, pid: int): Link
    requires l.co.handled < |l.cl.out|
  {
    l.(co := HandleNext(l.co, l.cl.out[l.co.handled], pid))
  }

  function Drained(l: Link): Link { l.(co := l.co.(p := Flushed(l.co.p))) }

  function Hung(l: Link): Link { l.(co := l.co.(p := Closed(l.co.p))) }

  function ReadMore(l: Link, n: nat): Link { l.(cl := l.cl.(read := l.cl.read + n)) }

  function Connected(room: int, script: seq<O.WriteResult>): Link
  {
    Link(Client(room, [], seq(SendTimes.RING, _ => 0), [JoinPayload(room)], 0), Conn(0, Accepted(script), []))
  }

  function Apply(s: Sys, a: Action): Sys
    requires Enabled(s, a)
  {
    match a
    case Connect(room, script) => s.(links := s.links + [Connected(room, script)])
    case SendMove(i, now) => s.(links := s.links[i := Moved(s.links[i], now)])
    case Dispatch(i) =>
      var p := s.links[i].cl.out[s.links[i].co.handled];
      s.(nextPid := if IsJoin(p) then s.nextPid + 1 else s.nextPid,
         links := s.links[i := Dispatched(s.links[i], s.nextPid + 1)])
    case Tick(room, order) =>
      var t := (TickOf(s, room) + 1) % TWO32;
      s.(ticks := s.ticks[room := t], links := TickAll(s.links, room, SnapshotPayload(t, Entries(s, order))))
    case Writable(i) => s.(links := s.links[i := Drained(s.links[i])])
    case Read(i, n) => s.(links := s.links[i := ReadMore(s.links[i], n)])
    case Close(i) => s.(links := s.links[i := Hung(s.links[i])])
    case Elsewhere => s.(nextPid := s.nextPid + 1)
  }

  ghost predicate Run(s: Sys, acts: seq<Action>, end: Sys)
    decreases |acts|
  {
    if acts == [] then s == end else Enabled(s, acts[0]) && Run(Apply(s, acts[0]), acts[1..], end)
  }

  // ---- what every run keeps ----

  function Sends(room: int, n: nat): (ps: seq<Bytes>)
    ensures |ps| == n + 1
  {
    [JoinPayload(room)] + seq(n, k requires 0 <= k < n => MovePayload(k + 1, 1, 0))
  }

  predicate IsSnapshot(p: Bytes) { |p| >= 7 && p[0] == MSG_SNAPSHOT }

  function Time(p: Bytes): int { if |p| >= 7 then DecodeSnapshot(p).tick else 0 }

  /** The sequence number that a payload echoes to player `me`. */
  function Own(p: Bytes, me: int): int { if |p| >= 7 then OwnSeq(DecodeSnapshot(p).entries, me) else 0 }

  /** An acknowledgement, and then snapshots of later and later ticks that echo moves in order. */
  predicate History(acks: seq<Bytes>, pid: int, room: int, tick: int, last: int)
  {
    && (acks != [] ==> acks[0] == JoinedPayload(pid, room))
    && (forall i | 1 <= i < |acks| :: IsSnapshot(acks[i]) && Time(acks[i]) <= tick && 0 <= Own(acks[i], pid) <= last)
    && (forall i, j | 1 <= i < j < |acks| :: Time(acks[i]) < Time(acks[j]) && Own(acks[i], pid) <= Own(acks[j], pid))
  }

  ghost predicate ClientOk(cl: Client)
  {
    && 0 <= cl.room < TWO32 && |cl.moves| < TWO32 && cl.out == Sends(cl.room, |cl.moves|)
    && |cl.slots| == SendTimes.RING && forall j | 0 <= j < SendTimes.RING ::
      cl.slots[j] == SendTimes.SlotTime(cl.moves, j)
  }

  ghost predicate PlayerOk(l: Link, nextPid: int)
  {
    var c, p := l.co, l.co.p;
    if c.handled == 0 then p.pid == 0 && p.place == Nowhere && c.acks == [] && p.lastSeq == 0
    else
      && c.handled <= |l.cl.moves| + 1 && 1 <= p.pid <= nextPid && p.lastSeq == c.handled - 1
      && (if p.o.closed then p.place == Nowhere else p.place == In(l.cl.room) && c.acks != [])
  }

  ghost predicate QueueOk(l: Link)
  {
    && O.Queued(l.co.p.o) && l.co.p.o.admitted == O.Frames(l.co.acks) && l.cl.read <= |l.co.p.o.sent|
    && forall p | p in l.co.acks :: Sendable(p)
  }

  ghost predicate LinkOk(l: Link, tick: int, nextPid: int)
  {
    && ClientOk(l.cl) && PlayerOk(l, nextPid) && QueueOk(l)
    && History(l.co.acks, l.co.p.pid, l.cl.room, tick, l.co.p.lastSeq)
  }

  ghost predicate Inv(s: Sys)
  {
    && 0 <= s.nextPid < TWO32
    && (forall r | r in s.ticks :: 0 <= s.ticks[r] < TWO32)
    && (forall i | 0 <= i < |s.links| :: LinkOk(s.links[i], TickOf(s, s.links[i].cl.room), s.nextPid))
    && (forall i, j | 0 <= i < j < |s.links| && s.links[i].co.p.pid == s.links[j].co.p.pid :: s.links[i].co.p.pid == 0)
  }

  lemma HistoryPush(acks: seq<Bytes>, pid: int, room: int, tick: int, last: int, p: Bytes, now: int)
    requires History(acks, pid, room, tick, last) && acks != []
    requires IsSnapshot(p) && Time(p) == now > tick && Own(p, pid) == last >= 0
    ensures History(acks + [p], pid, room, now, last) && History(acks, pid, room, now, last)
  {
    hide Own, Time, IsSnapshot, JoinedPayload;
  }

  lemma HistoryLater(acks: seq<Bytes>, pid: int, room: int, tick: int, last: int, now: int, newer: int)
    requires History(acks, pid, room, tick, last) && tick <= now && last <= newer
    ensures History(acks, pid, room, now, newer)
  {
    hide Own, Time, IsSnapshot, JoinedPayload;
  }

  /** An offer keeps the queue in order, and admits the payload or nothing. */
  lemma OfferOk(l: Link, q: Peer, payload: Bytes)
    requires QueueOk(l) && !l.co.p.o.closed && Sendable(payload) && q.o == l.co.p.o
    ensures var p := Offer(q, Frame(payload));
            var acks := Admitted(l.co.p.o, p.o, l.co.acks, payload);
            && QueueOk(l.(co := l.co.(p := p, acks := acks)))
            && acks in {l.co.acks, l.co.acks + [payload]}
            && (l.co.acks == [] && !p.o.closed ==> acks == [payload])
  {
    hide Frame, Concat, O.Enqueue, O.Queued;
    var f := Frame(payload);
    O.EnqueueQueued(l.co.p.o, f);
    FramesPush(l.co.acks, payload);
    SentGrows(l.co.p.o, f);
    if l.co.acks == [] { FirstAdmitted(l.co.p.o, f); }
  }

  lemma FramesPush(ps: seq<Bytes>, p: Bytes)
    ensures O.Frames(ps + [p]) == O.Frames(ps) + [Frame(p)]
  {
    hide Frame;
  }

  lemma SentGrows(o: O.Out, f: Bytes)
    ensures |o.sent| <= |O.Enqueue(o, f).sent|
  {
  }

  lemma FirstAdmitted(o: O.Out, f: Bytes)
    requires O.Queued(o) && o.admitted == []
    ensures O.Enqueue(o, f).closed || O.Enqueue(o, f).admitted == [f]
  {
    assert o.sent + o.wbuf == [];
    assert o.wbuf == [];
  }
}
