/** What the rooms of the Go servers (servers/go) deliver, over whole runs of the machine: a broadcast
    serves every connection as often as it has players in the room, sockets get whole frames in the
    order in which they were queued, and players are what their own commands and ticks make of them. */
module Delivery {
  import opened Wire
  import opened Framing
  import opened Room
  import opened GoServer
  import opened PoolRefinement

  function ConnAt(s: State, c: nat): Conn { if c < |s.conns| then s.conns[c] else FRESH_CONN }

  // ---- one broadcast ----

  /** A frame was offered to a connection: it is queued if there is room for it, and else counted as a
      drop. */
  predicate Offered(x: Conn, y: Conn, frame: Bytes)
  {
    if |x.chan| < 64 then y.chan == x.chan + [frame] && y.drops == x.drops
    else y.chan == x.chan && y.drops == x.drops + 1
  }

  /** How many steps of room `r` offer `frame` to connection `c`. */
  function Offers(s: State, run: seq<Action>, r: nat, c: nat, frame: Bytes): nat
    requires GPossible(s, run)
    decreases |run|
  {
    if run == [] then 0
    else
      var t := Apply(s, run[0]);
      (if run[0] == SendOrDrop(r) && Offered(ConnAt(s, c), ConnAt(t, c), frame) then 1 else 0)
      + Offers(t, run[1..], r, c, frame)
  }

  /** How many players of a room have come by connection `c`. */
  function Players(conns: map<int, nat>, c: nat): nat { |set pid | pid in conns && conns[pid] == c| }

  function Todo(pc: RoomPc): seq<nat> { if pc.Sending? then pc.todo else [] }

  lemma StepServes(s: State, a: Action, r: nat, c: nat, frame: Bytes)
    requires Enabled(s, a) && !(a.Tick? && a.r == r) && r < |s.rooms|
    requires s.rooms[r].pc.Sending? ==> s.rooms[r].pc.frame == frame
    ensures var t := Apply(s, a);
            && r < |t.rooms| && (t.rooms[r].pc.Sending? ==> t.rooms[r].pc.frame == frame)
            && multiset(Todo(s.rooms[r].pc))[c] == multiset(Todo(t.rooms[r].pc))[c]
                 + if a == SendOrDrop(r) && Offered(ConnAt(s, c), ConnAt(t, c), frame) then 1 else 0
  {
    if a == SendOrDrop(r) {
      var todo := s.rooms[r].pc.todo;
      assert todo == [todo[0]] + todo[1..];
      assert Todo(Apply(s, a).rooms[r].pc) == todo[1..];
    }
  }

  lemma {:induction false} RunServes(s: State, run: seq<Action>, r: nat, c: nat, frame: Bytes)
    requires GPossible(s, run) && r < |s.rooms| && forall a | a in run :: !(a.Tick? && a.r == r)
    requires s.rooms[r].pc.Sending? ==> s.rooms[r].pc.frame == frame
    ensures var e := GExec(s, run);
            && r < |e.rooms|
            && Offers(s, run, r, c, frame) + multiset(Todo(e.rooms[r].pc))[c] == multiset(Todo(s.rooms[r].pc))[c]
    decreases |run|
  {
    hide Enabled, Apply, Todo, Offered;
    if run != [] {
      StepServes(s, run[0], r, c, frame);
      RunServes(Apply(s, run[0]), run[1..], r, c, frame);
    }
  }

  lemma {:induction false} RecipientsCount(g: Game, dests: seq<int>, keys: set<int>, c: nat)
    requires Visits(dests, keys) && keys <= g.conns.Keys
    ensures forall i | 0 <= i < |dests| :: dests[i] in g.conns
    ensures multiset(Recipients(g, dests))[c] == |set pid | pid in keys && g.conns[pid] == c|
  {
    if dests != [] {
      var m := |dests| - 1;
      var pid := dests[m];
      RecipientsCount(g, dests[..m], keys - {pid}, c);
      assert Recipients(g, dests) == Recipients(g, dests[..m]) + [g.conns[pid]];
      var all, less := set p | p in keys && g.conns[p] == c, set p | p in keys - {pid} && g.conns[p] == c;
      assert all == if g.conns[pid] == c then less + {pid} else less;
    }
  }

  /** From one tick of a room to its next: by the time the room is idle again, each connection has been
      offered the snapshot of that tick exactly once for each player that came by it, whatever order the
      maps yield, whoever is slow, and whatever other agents do in between; and never more often on the
      way. */
  lemma BroadcastServes(s: State, r: nat, order: seq<int>, dests: seq<int>, run: seq<Action>, c: nat)
    requires Enabled(s, Tick(r, order, dests)) && GPossible(Apply(s, Tick(r, order, dests)), run)
    requires forall a | a in run :: !(a.Tick? && a.r == r)
    ensures forall i | 0 <= i < |order| :: order[i] in Ticked(s.rooms[r].game).players
    ensures var t := Apply(s, Tick(r, order, dests));
            var e, frame := GExec(t, run), SnapshotFrame(Ticked(s.rooms[r].game), order);
            && r < |e.rooms|
            && Offers(t, run, r, c, frame) <= Players(s.rooms[r].game.conns, c)
            && (e.rooms[r].pc == Idle ==> Offers(t, run, r, c, frame) == Players(s.rooms[r].game.conns, c))
  {
    hide SnapshotFrame, Ticked;
    var g := s.rooms[r].game;
    TickedKeeps(g, order);
    RecipientsCount(g, dests, g.conns.Keys, c);
    var t := Apply(s, Tick(r, order, dests));
    assert Todo(t.rooms[r].pc) == Recipients(g, dests);
    RunServes(t, run, r, c, SnapshotFrame(Ticked(g), order));
  }

  lemma TickedKeeps(g: Game, order: seq<int>)
    requires Visits(order, g.players.Keys)
    ensures Ticked(g).conns == g.conns && forall i | 0 <= i < |order| :: order[i] in Ticked(g).players
  {
    assert forall i | 0 <= i < |order| :: order[i] in order;
  }

  // ---- one socket ----

  function InHand(w: WriterPc): Bytes { if w.Writing? && w.pos <= |w.frame| then w.frame[w.pos..] else [] }

  /** What is queued for a connection, and what its writer has in hand. */
  function Owed(c: Conn): Bytes
  {
    InHand(c.writer) + Concat(c.chan)
  }

  /** What a step adds to a queue. */
  function Added(x: Conn, y: Conn): seq<Bytes> { if |y.chan| > |x.chan| then y.chan[|x.chan|..] else [] }

  /** The frames that enter a connection's queue during a run. */
  function Entering(s: State, run: seq<Action>, c: nat): seq<Bytes>
    requires GPossible(s, run)
    decreases |run|
  {
    if run == [] then []
    else
      Added(ConnAt(s, c), ConnAt(Apply(s, run[0]), c)) + Entering(Apply(s, run[0]), run[1..], c)
  }

  predicate PosOk(s: State)
  {
    forall i | 0 <= i < |s.conns| && s.conns[i].writer.Writing? :: s.conns[i].writer.pos <= |s.conns[i].writer.frame|
  }

  /** What went to the socket, and what is owed to it, after a step. */
  predicate Flows(x: Conn, y: Conn, added: seq<Bytes>)
  {
    && (y.writer.WExited? ==> y.out == x.out)
    && (x.writer.WExited? ==> y.writer.WExited?)
    && (!y.writer.WExited? ==> y.out + Owed(y) == x.out + Owed(x) + Concat(added))
  }

  /** The writer takes the first frame of the queue, hands on some bytes of it, or is done with it. */
  lemma TakeFlows(x: Conn, y: Conn)
    requires x.writer == WIdle && x.chan != []
    requires y == x.(chan := x.chan[1..], writer := Writing(x.chan[0], 0))
    ensures Flows(x, y, [])
  {
    ConcatPop(x.chan);
    NoneFlow(x, y);
  }

  lemma SomeFlows(x: Conn, y: Conn, k: nat)
    requires x.writer.Writing? && x.writer.pos + k <= |x.writer.frame|
    requires var w := x.writer;
             y == x.(out := x.out + w.frame[w.pos..w.pos + k], writer := w.(pos := w.pos + k))
    ensures Flows(x, y, [])
  {
    hide Concat;
    var w := x.writer;
    assert w.frame[w.pos..] == w.frame[w.pos..w.pos + k] + w.frame[w.pos + k..];
    assert y.out + Owed(y) == x.out + Owed(x);
    NoneFlow(x, y);
  }

  lemma DoneFlows(x: Conn, y: Conn)
    requires x.writer.Writing? || x.writer == WIdle
    requires y == x.(writer := WExited) || y == x.(writer := WIdle)
    requires y.writer == WIdle ==> x.writer.Writing? && x.writer.pos == |x.writer.frame|
    ensures Flows(x, y, [])
  {
    hide Concat;
    if y.writer == WIdle { NoneFlow(x, y); }
  }

  /** Nothing enters the queue. */
  lemma NoneFlow(x: Conn, y: Conn)
    requires !x.writer.WExited? && !y.writer.WExited? && y.out + Owed(y) == x.out + Owed(x)
    ensures Flows(x, y, [])
  {
    hide Owed;
    ConcatNone();
    assert x.out + Owed(x) + [] == x.out + Owed(x);
  }

  lemma WriterFlows(s: State, a: Action, c: nat)
    requires Enabled(s, a) && PosOk(s) && (a.WriteTake? || a.WriteSome? || a.WriteEnd? || a.WriteQuit?)
    ensures PosOk(Apply(s, a))
    ensures Flows(ConnAt(s, c), ConnAt(Apply(s, a), c), Added(ConnAt(s, c), ConnAt(Apply(s, a), c)))
  {
    hide Flows, Concat;
    var x, y := ConnAt(s, c), ConnAt(Apply(s, a), c);
    assert Added(x, y) == [];
    if a.c == c {
      match a {
        case WriteTake(_) => TakeFlows(x, y);
        case WriteSome(_, k) => SomeFlows(x, y, k);
        case WriteEnd(_, _) => DoneFlows(x, y);
        case WriteQuit(_) => DoneFlows(x, y);
      }
    } else {
      PushFlows(x, y);
    }
  }

  lemma ConcatPop(bs: seq<Bytes>)
    requires bs != []
    ensures Concat(bs) == bs[0] + Concat(bs[1..])
  {
    hide Concat;
    assert bs == [bs[0]] + bs[1..];
    ConcatBoth([bs[0]], bs[1..]);
    ConcatPush([], bs[0]);
    ConcatNone();
    assert [] + [bs[0]] == [bs[0]] && [] + bs[0] == bs[0];
  }

  /** The queue grows by a frame, or nothing changes. */
  lemma PushFlows(x: Conn, y: Conn)
    requires y.out == x.out && y.writer == x.writer
    requires y.chan == x.chan || (y.chan != [] && y.chan == x.chan + [y.chan[|y.chan| - 1]])
    ensures Flows(x, y, Added(x, y))
  {
    assert Concat([]) == [];
    if y.chan != x.chan {
      var frame := y.chan[|x.chan|];
      assert Added(x, y) == [frame];
      ConcatPush(x.chan, frame);
      ConcatPush([], frame);
      assert [] + [frame] == [frame] && Concat([frame]) == frame;
    }
  }

  lemma QueueFlows(s: State, a: Action, c: nat)
    requires Enabled(s, a) && PosOk(s) && (a.SendOrDrop? || a.SendJoined?)
    ensures PosOk(Apply(s, a))
    ensures Flows(ConnAt(s, c), ConnAt(Apply(s, a), c), Added(ConnAt(s, c), ConnAt(Apply(s, a), c)))
  {
    hide Flows, Added, Concat;
    PushFlows(ConnAt(s, c), ConnAt(Apply(s, a), c));
  }

  lemma OtherFlows(s: State, a: Action, c: nat)
    requires Enabled(s, a) && PosOk(s) && !a.SendOrDrop? && !a.SendJoined?
    requires !a.WriteTake? && !a.WriteSome? && !a.WriteEnd? && !a.WriteQuit?
    ensures PosOk(Apply(s, a))
    ensures Flows(ConnAt(s, c), ConnAt(Apply(s, a), c), Added(ConnAt(s, c), ConnAt(Apply(s, a), c)))
  {
    hide Ticked, Joined, Moved, Left, SnapshotFrame, Recipients, JoinedFrame, Flows, Added, Concat;
    PushFlows(ConnAt(s, c), ConnAt(Apply(s, a), c));
  }

  lemma StepFlows(s: State, a: Action, c: nat)
    requires Enabled(s, a) && PosOk(s)
    ensures PosOk(Apply(s, a))
    ensures Flows(ConnAt(s, c), ConnAt(Apply(s, a), c), Added(ConnAt(s, c), ConnAt(Apply(s, a), c)))
  {
    hide Apply, Enabled, PosOk, Flows, Added, ConnAt;
    match a {
      case SendOrDrop(_) => QueueFlows(s, a, c);
      case SendJoined(_) => QueueFlows(s, a, c);
      case WriteTake(_) => WriterFlows(s, a, c);
      case WriteSome(_, _) => WriterFlows(s, a, c);
      case WriteEnd(_, _) => WriterFlows(s, a, c);
      case WriteQuit(_) => WriterFlows(s, a, c);
      case _ => OtherFlows(s, a, c);
    }
  }

  /** In every run, what a connection's writer has handed to the socket is the beginning of the whole frames
      that entered its queue, in that order; and while the writer lives, the rest of them is what it has
      in hand and what is queued. */
  lemma {:induction false} SocketGetsFrames(s: State, run: seq<Action>, c: nat)
    requires GPossible(s, run) && PosOk(s)
    ensures var x, y := ConnAt(s, c), ConnAt(GExec(s, run), c);
            var all := x.out + Owed(x) + Concat(Entering(s, run, c));
            && y.out <= all && (x.writer.WExited? ==> y.writer.WExited? && y.out == x.out)
            && (!y.writer.WExited? ==> y.out + Owed(y) == all)
    decreases |run|
  {
    hide Apply, Enabled, PosOk, Owed, ConnAt, Concat;
    var x := ConnAt(s, c);
    if run == [] {
      assert Concat([]) == [] by { ConcatNone(); }
      assert x.out + Owed(x) + [] == x.out + Owed(x);
    } else {
      var t := Apply(s, run[0]);
      StepFlows(s, run[0], c);
      SocketGetsFrames(t, run[1..], c);
      var added, more := Added(x, ConnAt(t, c)), Entering(t, run[1..], c);
      ConcatBoth(added, more);
      assert x.out + Owed(x) + Concat(added) + Concat(more) == x.out + Owed(x) + (Concat(added) + Concat(more));
    }
  }

  /** From the start of the server. */
  lemma SocketFromStart(run: seq<Action>, c: nat)
    requires GPossible(INIT, run)
    ensures ConnAt(GExec(INIT, run), c).out <= Concat(Entering(INIT, run, c))
  {
    hide Apply, Enabled, Concat;
    ConcatNone();
    SocketGetsFrames(INIT, run, c);
    assert [] + ([] + Concat([])) + Concat(Entering(INIT, run, c)) == Concat(Entering(INIT, run, c));
  }

  lemma ConcatNone()
    ensures Concat([]) == []
  {
  }

  lemma {:induction false} ConcatBoth(a: seq<Bytes>, b: seq<Bytes>)
    ensures Concat(a + b) == Concat(a) + Concat(b)
  {
    if b == [] {
      assert a + b == a;
    } else {
      var m := |b| - 1;
      ConcatBoth(a, b[..m]);
      assert (a + b)[..|a| + m] == a + b[..m] && (a + b)[|a| + m] == b[m];
      assert Concat(a) + Concat(b[..m]) + b[m] == Concat(a) + (Concat(b[..m]) + b[m]);
    }
  }

  // ---- one player ----

  function JoinsIn(run: seq<Action>): nat
  {
    if run == [] then 0 else JoinsIn(run[..|run| - 1]) + if run[|run| - 1].Join? then 1 else 0
  }

  function RoomsIn(run: seq<Action>): nat
  {
    if run == [] then 0 else RoomsIn(run[..|run| - 1]) + if run[|run| - 1].NewRoom? then 1 else 0
  }

  function TicksIn(run: seq<Action>, r: nat): nat
  {
    if run == [] then 0
    else
      var m := |run| - 1;
      TicksIn(run[..m], r) + if run[m].Tick? && run[m].r == r then 1 else 0
  }

  /** A player's life: the connection it came by, how far it has been sent in all, and its last MOVE. */
  datatype Life = Absent | Present(conn: nat, wayX: int, wayY: int, vx: int, vy: int, lastSeq: int)

  /** What an action makes of a life, if `joins` JOINs came before it. The ids are the numbers of the JOINs,
      counted over all rooms, modulo 2^32. */
  function LifeAfter(was: Life, a: Action, r: nat, pid: int, joins: nat): Life
  {
    match a
    case Join(r', c) => if r' == r && pid == (joins + 1) % 0x1_0000_0000 then Present(c, 0, 0, 0, 0, 0) else was
    case Leave(r', q) => if r' == r && q == pid then Absent else was
    case Move(r', q, lastSeq, dx, dy) =>
      if r' == r && q == pid && was.Present? then was.(vx := dx, vy := dy, lastSeq := lastSeq) else was
    case Tick(r', _, _) =>
      if r' == r && was.Present? then was.(wayX := was.wayX + was.vx, wayY := was.wayY + was.vy) else was
    case _ => was
  }

  /** The life of player `pid` in room `r`. */
  function LifeOf(run: seq<Action>, r: nat, pid: int): Life
  {
    if run == [] then Absent
    else
      var m := |run| - 1;
      LifeAfter(LifeOf(run[..m], r, pid), run[m], r, pid, JoinsIn(run[..m]))
  }

  /** A room has the player that this life makes, or none. */
  predicate Lives(g: Game, pid: int, l: Life)
  {
    && (pid in g.players <==> l.Present?) && (pid in g.conns <==> l.Present?)
    && (l.Present? ==>
          && g.conns[pid] == l.conn
          && g.players[pid] == Player(Wrap32(l.wayX), Wrap32(l.wayY), l.vx, l.vy, l.lastSeq))
  }

  lemma JoinedLives(g: Game, at: int, c: nat, pid: int, l: Life)
    requires Lives(g, pid, l)
    ensures Lives(Joined(g, at, c), pid, if at == pid then Present(c, 0, 0, 0, 0, 0) else l)
  {
  }

  lemma MovedLives(g: Game, at: int, lastSeq: int, dx: int, dy: int, pid: int, l: Life)
    requires Lives(g, pid, l)
    ensures Lives(Moved(g, at, lastSeq, dx, dy), pid,
                  if at == pid && l.Present? then l.(vx := dx, vy := dy, lastSeq := lastSeq) else l)
  {
  }

  lemma LeftLives(g: Game, at: int, pid: int, l: Life)
    requires Lives(g, pid, l)
    ensures Lives(Left(g, at), pid, if at == pid then Absent else l)
  {
  }

  lemma TickedLives(g: Game, pid: int, l: Life)
    requires Lives(g, pid, l)
    ensures Lives(Ticked(g), pid,
                  if l.Present? then l.(wayX := l.wayX + l.vx, wayY := l.wayY + l.vy) else l)
  {
    if l.Present? {
      WrapSum(l.wayX, l.vx);
      WrapSum(l.wayY, l.vy);
    }
  }

  /** The room's game after the run, of all players and the tick number. */
  ghost predicate RoomLives(g: Game, run: seq<Action>, r: nat)
  {
    g.tick == TicksIn(run, r) % 0x1_0000_0000 && forall pid :: Lives(g, pid, LifeOf(run, r, pid))
  }

  /** A room that is not there yet is empty. */
  function GameAt(s: State, r: nat): Game { if r < |s.rooms| then s.rooms[r].game else EMPTY_GAME }

  lemma StepLife(s: State, a: Action, r: nat, pid: int, l: Life, joins: nat)
    requires Enabled(s, a) && Lives(GameAt(s, r), pid, l) && s.nextPid == joins % 0x1_0000_0000
    ensures Lives(GameAt(Apply(s, a), r), pid, LifeAfter(l, a, r, pid, joins))
  {
    hide Lives, Joined, Left, Moved, Ticked, SnapshotFrame, Recipients, GoServer.AfterSend, Visits, JoinedFrame;
    var g := GameAt(s, r);
    match a {
      case Join(r', c) => if r' == r { JoinedLives(g, NextPid(s.nextPid), c, pid, l); }
      case Leave(r', q) => if r' == r { LeftLives(g, q, pid, l); }
      case Move(r', q, lastSeq, dx, dy) => if r' == r { MovedLives(g, q, lastSeq, dx, dy, pid, l); }
      case Tick(r', _, _) => if r' == r { TickedLives(g, pid, l); }
      case _ =>
    }
  }

  lemma StepLives(s: State, run: seq<Action>, a: Action, r: nat)
    requires Enabled(s, a) && RoomLives(GameAt(s, r), run, r) && s.nextPid == JoinsIn(run) % 0x1_0000_0000
    ensures RoomLives(GameAt(Apply(s, a), r), run + [a], r)
  {
    hide Lives, LifeOf, LifeAfter, TicksIn, JoinsIn, GameAt, Enabled, Apply;
    TicksMore(run, a, r);
    forall pid ensures Lives(GameAt(Apply(s, a), r), pid, LifeOf(run + [a], r, pid)) {
      LifeMore(run, a, r, pid);
      StepLife(s, a, r, pid, LifeOf(run, r, pid), JoinsIn(run));
    }
    StepTick(s, a, r);
  }

  lemma LifeMore(run: seq<Action>, a: Action, r: nat, pid: int)
    ensures LifeOf(run + [a], r, pid) == LifeAfter(LifeOf(run, r, pid), a, r, pid, JoinsIn(run))
  {
    hide LifeAfter;
    assert (run + [a])[..|run|] == run;
  }

  lemma TicksMore(run: seq<Action>, a: Action, r: nat)
    ensures TicksIn(run + [a], r) == TicksIn(run, r) + if a.Tick? && a.r == r then 1 else 0
  {
    assert (run + [a])[..|run|] == run;
  }

  lemma StepTick(s: State, a: Action, r: nat)
    requires Enabled(s, a)
    ensures GameAt(Apply(s, a), r).tick ==
              if a.Tick? && a.r == r then (GameAt(s, r).tick + 1) % 0x1_0000_0000 else GameAt(s, r).tick
  {
    hide SnapshotFrame, Recipients, GoServer.AfterSend, Visits, JoinedFrame;
  }

  lemma {:induction false} LastStep(s: State, run: seq<Action>)
    requires GPossible(s, run) && run != []
    ensures var m := |run| - 1;
            && GPossible(s, run[..m]) && Enabled(GExec(s, run[..m]), run[m])
            && GExec(s, run) == Apply(GExec(s, run[..m]), run[m])
    decreases |run|
  {
    hide Enabled, Apply;
    var m := |run| - 1;
    if m == 0 {
      assert run[..0] == [] && run[1..] == [];
    } else {
      LastStep(Apply(s, run[0]), run[1..]);
      assert run[1..][..m - 1] == run[..m][1..];
    }
  }

  /** In every run of the server: ids are the numbers of the JOINs, modulo 2^32; each room's tick number is
      that of its ticks; and it holds exactly the players that joined it and have not left, each at the
      sum of the velocities that its own MOVEs had set at the ticks since it joined, wrapped once, with
      the velocity and sequence number of its last MOVE, and with the connection that it came by. */
  lemma {:induction false} PlayersAre(run: seq<Action>, r: nat)
    requires GPossible(INIT, run)
    ensures var s := GExec(INIT, run);
            && s.nextPid == JoinsIn(run) % 0x1_0000_0000 && |s.rooms| == RoomsIn(run)
            && RoomLives(GameAt(s, r), run, r)
  {
    hide Enabled, Apply, RoomLives;
    if run == [] {
      NobodyLives(r);
    } else {
      var m := |run| - 1;
      LastStep(INIT, run);
      PlayersAre(run[..m], r);
      assert run[..m] + [run[m]] == run;
      StepLives(GExec(INIT, run[..m]), run[..m], run[m], r);
      StepCounts(GExec(INIT, run[..m]), run[m]);
    }
  }

  lemma NobodyLives(r: nat)
    ensures RoomLives(GameAt(INIT, r), [], r)
  {
  }

  lemma StepCounts(s: State, a: Action)
    requires Enabled(s, a)
    ensures Apply(s, a).nextPid == if a.Join? then (s.nextPid + 1) % 0x1_0000_0000 else s.nextPid
    ensures |Apply(s, a).rooms| == |s.rooms| + if a.NewRoom? then 1 else 0
  {
    hide SnapshotFrame, Recipients, GoServer.AfterSend, Visits, JoinedFrame, Joined, Left, Moved, Ticked;
  }

  /** As long as fewer than 2^32 connections have joined, no two players have the same id, and none has 0. */
  lemma IdsDiffer(run: seq<Action>, i: nat, j: nat)
    requires GPossible(INIT, run) && i < j < |run| && run[i].Join? && run[j].Join?
    requires JoinsIn(run) < 0x1_0000_0000
    ensures GPossible(INIT, run[..i + 1]) && GPossible(INIT, run[..j + 1])
    ensures 0 < GExec(INIT, run[..i + 1]).nextPid < GExec(INIT, run[..j + 1]).nextPid
  {
    hide GPossible, GExec, RoomLives, JoinsIn;
    PrefixPossible(INIT, run, i + 1);
    PrefixPossible(INIT, run, j + 1);
    PlayersAre(run[..i + 1], 0);
    PlayersAre(run[..j + 1], 0);
    JoinsGrow(run, i);
    JoinsGrow(run, j);
    assert run[..j][..i + 1] == run[..i + 1];
    JoinsUpTo(run[..j], i + 1);
    JoinsUpTo(run, j + 1);
  }

  lemma JoinsGrow(run: seq<Action>, i: nat)
    requires i < |run| && run[i].Join?
    ensures JoinsIn(run[..i + 1]) == JoinsIn(run[..i]) + 1
  {
    assert run[..i + 1][..i] == run[..i];
  }

  lemma {:induction false} JoinsUpTo(run: seq<Action>, m: nat)
    requires m <= |run|
    ensures JoinsIn(run[..m]) <= JoinsIn(run)
  {
    if m < |run| {
      JoinsUpTo(run[..|run| - 1], m);
      assert run[..|run| - 1][..m] == run[..m];
    } else {
      assert run[..m] == run;
    }
  }

  lemma {:induction false} PrefixPossible(s: State, run: seq<Action>, m: nat)
    requires GPossible(s, run) && m <= |run|
    ensures GPossible(s, run[..m])
    decreases |run|
  {
    hide Enabled, Apply;
    if m < |run| {
      LastStep(s, run);
      PrefixPossible(s, run[..|run| - 1], m);
      assert run[..|run| - 1][..m] == run[..m];
    } else {
      assert run[..m] == run;
    }
  }

  // ---- the acknowledgement of a JOIN ----

  /** The room that the `r`-th NewRoom action made. */
  function RoomIds(run: seq<Action>): seq<int>
  {
    if run == [] then []
    else
      var m := |run| - 1;
      RoomIds(run[..m]) + if run[m].NewRoom? then [run[m].id] else []
  }

  /** The reader of a connection waits from a JOIN until its acknowledgement is queued. */
  datatype Reply = None | Due(pid: int, room: int)

  function ReplyOf(run: seq<Action>, c: nat): Reply
  {
    if run == [] then None
    else
      var m := |run| - 1;
      match run[m]
      case Join(r, c') =>
        if c' == c && r < |RoomIds(run[..m])| then Due(JoinsIn(run) % 0x1_0000_0000, RoomIds(run[..m])[r])
        else ReplyOf(run[..m], c)
      case SendJoined(c') => if c' == c then None else ReplyOf(run[..m], c)
      case _ => ReplyOf(run[..m], c)
  }

  function Acknowledgement(pid: int, room: int): Bytes { Be32(9) + ([0x81] + Be32(pid) + Be32(room)) }

  predicate Replies(reader: ReaderPc, reply: Reply)
  {
    match reply
    case None => reader == RIdle
    case Due(pid, room) => reader == RSend(Acknowledgement(pid, room))
  }

  lemma ReplyQueues(s: State, c: nat, reply: Reply)
    requires Enabled(s, SendJoined(c)) && Replies(ConnAt(s, c).reader, reply)
    ensures reply.Due?
    ensures ConnAt(Apply(s, SendJoined(c)), c).chan ==
              ConnAt(s, c).chan + [Acknowledgement(reply.pid, reply.room)]
  {
    hide Acknowledgement;
  }

  /** The rooms are those made, with their ids. */
  predicate RoomsAre(s: State, run: seq<Action>)
  {
    |s.rooms| == |RoomIds(run)| && forall r | 0 <= r < |s.rooms| :: s.rooms[r].id == RoomIds(run)[r]
  }

  lemma StepRooms(s: State, run: seq<Action>, a: Action)
    requires Enabled(s, a) && RoomsAre(s, run)
    ensures RoomsAre(Apply(s, a), run + [a])
  {
    hide Joined, Left, Moved, Ticked, SnapshotFrame, Recipients, GoServer.AfterSend, Visits, JoinedFrame;
    assert (run + [a])[..|run|] == run;
  }

  /** What one action makes of a reply that is due. */
  function ReplyAfter(was: Reply, a: Action, c: nat, ids: seq<int>, joins: nat): Reply
  {
    match a
    case Join(r, c') => if c' == c && r < |ids| then Due((joins + 1) % 0x1_0000_0000, ids[r]) else was
    case SendJoined(c') => if c' == c then None else was
    case _ => was
  }

  lemma ReplyMore(run: seq<Action>, a: Action, c: nat)
    ensures ReplyOf(run + [a], c) == ReplyAfter(ReplyOf(run, c), a, c, RoomIds(run), JoinsIn(run))
  {
    assert (run + [a])[..|run|] == run;
  }

  lemma StepReply(s: State, a: Action, c: nat, was: Reply, ids: seq<int>, joins: nat)
    requires Enabled(s, a) && Replies(ConnAt(s, c).reader, was) && s.nextPid == joins % 0x1_0000_0000
    requires |s.rooms| == |ids| && forall r | 0 <= r < |s.rooms| :: s.rooms[r].id == ids[r]
    ensures Replies(ConnAt(Apply(s, a), c).reader, ReplyAfter(was, a, c, ids, joins))
  {
    hide Be32, Joined, Left, Moved, Ticked, SnapshotFrame, Recipients, GoServer.AfterSend, Visits;
    if a.Join? {
      var p := JoinedPayload(NextPid(s.nextPid), s.rooms[a.r].id);
      assert Frame(p) == Be32(9) + p;
    }
  }

  lemma StepReplies(s: State, run: seq<Action>, a: Action, c: nat)
    requires Enabled(s, a) && Replies(ConnAt(s, c).reader, ReplyOf(run, c)) && RoomsAre(s, run)
    requires s.nextPid == JoinsIn(run) % 0x1_0000_0000
    ensures Replies(ConnAt(Apply(s, a), c).reader, ReplyOf(run + [a], c)) && RoomsAre(Apply(s, a), run + [a])
  {
    hide Apply, Enabled, Replies, ReplyOf, RoomIds, JoinsIn, ReplyAfter;
    StepRooms(s, run, a);
    ReplyMore(run, a, c);
    StepReply(s, a, c, ReplyOf(run, c), RoomIds(run), JoinsIn(run));
  }

  /** In every run, what the reader of a connection has to queue, and queues when there is room, is the
      acknowledgement of its last JOIN, with the id that this JOIN was given and the room that it went
      to, once. */
  lemma {:induction false} RunReplies(run: seq<Action>, c: nat)
    requires GPossible(INIT, run)
    ensures var s := GExec(INIT, run);
            && Replies(ConnAt(s, c).reader, ReplyOf(run, c)) && RoomsAre(s, run)
            && (Enabled(s, SendJoined(c)) ==>
                  && ReplyOf(run, c).Due?
                  && ConnAt(Apply(s, SendJoined(c)), c).chan ==
                       ConnAt(s, c).chan + [Acknowledgement(ReplyOf(run, c).pid, ReplyOf(run, c).room)])
  {
    if run != [] {
      hide Enabled, Apply, Replies, ReplyOf, RoomsAre, RoomLives;
      var m := |run| - 1;
      LastStep(INIT, run);
      RunReplies(run[..m], c);
      PlayersAre(run[..m], 0);
      assert run[..m] + [run[m]] == run;
      StepReplies(GExec(INIT, run[..m]), run[..m], run[m], c);
      var s := GExec(INIT, run);
      if Enabled(s, SendJoined(c)) { ReplyQueues(s, c, ReplyOf(run, c)); }
    }
  }
}
