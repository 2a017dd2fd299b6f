/** The reference-count protocol is safe: the invariant of Pool holds in every reachable
    state, under every interleaving. */
module PoolSafety {
  import opened Wire
  import opened Room
  import opened Pool
  import G = GoServer

  // ---- sums of stakes ----

  lemma {:induction false} TotalUpdate<T>(xs: seq<T>, stake: T -> Stake, i: nat, x: T)
    requires i < |xs|
    ensures Plus(Total(xs[i := x], stake), stake(xs[i])) == Plus(Total(xs, stake), stake(x))
  {
    var m := |xs| - 1;
    if i < m {
      TotalUpdate(xs[..m], stake, i, x);
      assert xs[i := x][..m] == xs[..m][i := x];
    } else {
      assert xs[i := x][..m] == xs[..m];
    }
  }

  lemma TotalAppend<T>(xs: seq<T>, stake: T -> Stake, x: T)
    ensures Total(xs + [x], stake) == Plus(Total(xs, stake), stake(x))
  {
    assert (xs + [x])[..|xs|] == xs;
  }

  predicate Within(a: Stake, b: Stake) { a.held <= b.held && a.filling <= b.filling && a.putting <= b.putting }

  lemma {:induction false} TotalWithin<T>(xs: seq<T>, stake: T -> Stake, i: nat)
    requires i < |xs|
    ensures Within(stake(xs[i]), Total(xs, stake))
  {
    if i < |xs| - 1 { TotalWithin(xs[..|xs| - 1], stake, i); }
  }

  lemma {:induction false} TotalWithinTwo<T>(xs: seq<T>, stake: T -> Stake, i: nat, j: nat)
    requires i < j < |xs|
    ensures Within(Plus(stake(xs[i]), stake(xs[j])), Total(xs, stake))
  {
    var m := |xs| - 1;
    if j < m { TotalWithinTwo(xs[..m], stake, i, j); } else { TotalWithin(xs[..m], stake, i); }
  }

  lemma {:induction false} CountPush(chan: seq<nat>, x: nat, b: nat)
    ensures Count(chan + [x], b) == Count(chan, b) + One(x == b)
  {
    if chan == [] {
      assert (chan + [x])[1..] == [];
    } else {
      assert (chan + [x])[1..] == chan[1..] + [x];
      CountPush(chan[1..], x, b);
    }
  }

  lemma {:induction false} CountIn(chan: seq<nat>, b: nat)
    ensures b in chan <==> Count(chan, b) > 0
  {
    if chan != [] { CountIn(chan[1..], b); }
  }

  /** Connection `i` became `c`; nothing else about the agents changed. */
  lemma ConnStep(s: State, s': State, i: nat, c: Conn, b: nat)
    requires i < |s.conns| && s'.conns == s.conns[i := c] && s'.rooms == s.rooms
    ensures Plus(Stakes(s', b), ConnStake(s.conns[i], b)) == Plus(Stakes(s, b), ConnStake(c, b))
  {
    hide ConnStake, RoomStake;
    TotalUpdate(s.conns, ConnStakeIn(b), i, c);
  }

  lemma RoomStep(s: State, s': State, i: nat, r: RoomAgent, b: nat)
    requires i < |s.rooms| && s'.rooms == s.rooms[i := r] && s'.conns == s.conns
    ensures Plus(Stakes(s', b), RoomStake(s.rooms[i].pc, b)) == Plus(Stakes(s, b), RoomStake(r.pc, b))
  {
    hide ConnStake, RoomStake;
    TotalUpdate(s.rooms, RoomStakeIn(b), i, r);
  }

  /** What an agent holds, fills or is about to put back is an existing, accounted buffer. */
  lemma ConnBuf(s: State, i: nat, b: nat)
    requires MemOk(s) && i < |s.conns| && ConnStake(s.conns[i], b) != NO_STAKE
    ensures b < |s.mem| && BufOk(s.mem[b], Stakes(s, b)) && Within(ConnStake(s.conns[i], b), Stakes(s, b))
  {
    hide ConnStake, RoomStake, BufOk;
    TotalWithin(s.conns, ConnStakeIn(b), i);
    assert b >= |s.mem| ==> Stakes(s, b) == NO_STAKE;
  }

  lemma RoomBuf(s: State, i: nat, b: nat)
    requires MemOk(s) && i < |s.rooms| && RoomStake(s.rooms[i].pc, b) != NO_STAKE
    ensures b < |s.mem| && BufOk(s.mem[b], Stakes(s, b)) && Within(RoomStake(s.rooms[i].pc, b), Stakes(s, b))
  {
    hide ConnStake, RoomStake, BufOk;
    TotalWithin(s.rooms, RoomStakeIn(b), i);
    assert b >= |s.mem| ==> Stakes(s, b) == NO_STAKE;
  }

  // ---- one step: reference counts ----

  /** Only buffer `b` was touched, and it is still accounted for. */
  lemma OneBuffer(s: State, s': State, b: nat)
    requires MemOk(s)
    requires |s.mem| <= |s'.mem| <= |s.mem| + 1 && (|s.mem| < |s'.mem| ==> b == |s.mem|) && b < |s'.mem|
    requires BufOk(s'.mem[b], Stakes(s', b))
    requires forall x: nat | x != b :: Stakes(s', x) == Stakes(s, x)
    requires forall x: nat | x != b && x < |s.mem| :: s'.mem[x] == s.mem[x]
    ensures MemOk(s')
  {
    hide Stakes, BufOk;
  }

  /** A total in which one agent's share changes. */
  function Shift(total: Stake, before: Stake, after: Stake): Stake
    requires Within(before, total)
  {
    Stake(total.held - before.held + after.held, total.filling - before.filling + after.filling,
          total.putting - before.putting + after.putting)
  }

  /** The memory changed at `b` only; `b` may be new. */
  ghost predicate Touches(s: State, s': State, b: nat)
  {
    && |s.mem| <= |s'.mem| <= |s.mem| + 1 && (|s.mem| < |s'.mem| ==> b == |s.mem|) && b < |s'.mem|
    && forall x: nat | x != b && x < |s.mem| :: s'.mem[x] == s.mem[x]
  }

  /** Connection `i` became `c`, and only buffer `b` is involved. */
  lemma ConnTouches(s: State, s': State, i: nat, c: Conn, b: nat)
    requires MemOk(s) && i < |s.conns| && s'.conns == s.conns[i := c] && s'.rooms == s.rooms
    requires Touches(s, s', b)
    requires forall x: nat | x != b :: ConnStake(c, x) == ConnStake(s.conns[i], x)
    requires Within(ConnStake(s.conns[i], b), Stakes(s, b))
    requires BufOk(s'.mem[b], Shift(Stakes(s, b), ConnStake(s.conns[i], b), ConnStake(c, b)))
    ensures MemOk(s')
  {
    hide ConnStake, RoomStake, BufOk, Stakes;
    ConnStep(s, s', i, c, b);
    assert Stakes(s', b) == Shift(Stakes(s, b), ConnStake(s.conns[i], b), ConnStake(c, b));
    forall x: nat | x != b ensures Stakes(s', x) == Stakes(s, x) { ConnStep(s, s', i, c, x); }
    OneBuffer(s, s', b);
  }

  lemma RoomTouches(s: State, s': State, i: nat, r: RoomAgent, b: nat)
    requires MemOk(s) && i < |s.rooms| && s'.rooms == s.rooms[i := r] && s'.conns == s.conns
    requires Touches(s, s', b)
    requires forall x: nat | x != b :: RoomStake(r.pc, x) == RoomStake(s.rooms[i].pc, x)
    requires Within(RoomStake(s.rooms[i].pc, b), Stakes(s, b))
    requires BufOk(s'.mem[b], Shift(Stakes(s, b), RoomStake(s.rooms[i].pc, b), RoomStake(r.pc, b)))
    ensures MemOk(s')
  {
    hide ConnStake, RoomStake, BufOk, Stakes;
    RoomStep(s, s', i, r, b);
    assert Stakes(s', b) == Shift(Stakes(s, b), RoomStake(s.rooms[i].pc, b), RoomStake(r.pc, b));
    forall x: nat | x != b ensures Stakes(s', x) == Stakes(s, x) { RoomStep(s, s', i, r, x); }
    OneBuffer(s, s', b);
  }

  lemma GetBuf(s: State, src: G.Source, n: nat)
    requires MemOk(s) && CanGet(s, src, n)
    ensures var b, s' := Target(s, src), Get(s, src);
            && Touches(s, s', b) && s'.mem[b].bytes == (if src.New? then src.bytes else src.stale)
            && Stakes(s, b) == NO_STAKE && BufOk(s'.mem[b], Stake(0, 1, 0))
  {
    hide Stakes;
    var b := Target(s, src);
    assert src.Recycled? ==> b < |s.mem| && BufOk(s.mem[b], Stakes(s, b));
  }

  /** The writer of connection `i` moved on; only buffer `b` is involved. */
  lemma WriterTouches(s: State, s': State, i: nat, c: Conn, b: nat)
    requires MemOk(s) && i < |s.conns| && s'.conns == s.conns[i := c] && s'.rooms == s.rooms
    requires Touches(s, s', b) && c.chan == s.conns[i].chan && c.reader == s.conns[i].reader
    requires forall x: nat | x != b :: WriterStake(c.writer, x) == WriterStake(s.conns[i].writer, x)
    requires Within(WriterStake(s.conns[i].writer, b), Stakes(s, b))
    requires BufOk(s'.mem[b], Shift(Stakes(s, b), WriterStake(s.conns[i].writer, b), WriterStake(c.writer, b)))
    ensures MemOk(s')
  {
    hide MemOk, Stakes, BufOk, Count, WriterStake, ReaderStake;
    StakeWithin(s, i, b);
    ConnTouches(s, s', i, c, b);
  }

  lemma ReaderTouches(s: State, s': State, i: nat, c: Conn, b: nat)
    requires MemOk(s) && i < |s.conns| && s'.conns == s.conns[i := c] && s'.rooms == s.rooms
    requires Touches(s, s', b) && c.chan == s.conns[i].chan && c.writer == s.conns[i].writer
    requires forall x: nat | x != b :: ReaderStake(c.reader, x) == ReaderStake(s.conns[i].reader, x)
    requires Within(ReaderStake(s.conns[i].reader, b), Stakes(s, b))
    requires BufOk(s'.mem[b], Shift(Stakes(s, b), ReaderStake(s.conns[i].reader, b), ReaderStake(c.reader, b)))
    ensures MemOk(s')
  {
    hide MemOk, Stakes, BufOk, Count, WriterStake, ReaderStake;
    StakeWithin(s, i, b);
    ConnTouches(s, s', i, c, b);
  }

  lemma StakeWithin(s: State, i: nat, b: nat)
    requires i < |s.conns|
    ensures Within(ConnStake(s.conns[i], b), Stakes(s, b))
  {
    hide ConnStake, RoomStake;
    TotalWithin(s.conns, ConnStakeIn(b), i);
  }

  lemma WriterBuf(s: State, i: nat, b: nat)
    requires MemOk(s) && i < |s.conns| && WriterStake(s.conns[i].writer, b) != NO_STAKE
    ensures b < |s.mem| && BufOk(s.mem[b], Stakes(s, b)) && Within(WriterStake(s.conns[i].writer, b), Stakes(s, b))
  {
    hide MemOk, Stakes, BufOk, Count, WriterStake, ReaderStake;
    ConnBuf(s, i, b);
  }

  lemma ReaderBuf(s: State, i: nat, b: nat)
    requires MemOk(s) && i < |s.conns| && ReaderStake(s.conns[i].reader, b) != NO_STAKE
    ensures b < |s.mem| && BufOk(s.mem[b], Stakes(s, b)) && Within(ReaderStake(s.conns[i].reader, b), Stakes(s, b))
  {
    hide MemOk, Stakes, BufOk, Count, WriterStake, ReaderStake;
    ConnBuf(s, i, b);
  }

  lemma MemReadGet(s: State, c: nat, src: G.Source)
    requires MemOk(s) && CanReadGet(s, c, src)
    ensures MemOk(ReadGet(s, c, src))
  {
    hide MemOk, Stakes;
    var s', b := ReadGet(s, c, src), Target(s, src);
    GetBuf(s, src, |s.conns[c].reader.frame|);
    ReaderTouches(s, s', c, s'.conns[c], b);
  }

  lemma MemRoomGet(s: State, r: nat, src: G.Source)
    requires MemOk(s) && CanRoomGet(s, r, src)
    ensures MemOk(RoomGet(s, r, src))
  {
    hide MemOk, Stakes;
    var s', b := RoomGet(s, r, src), Target(s, src);
    GetBuf(s, src, |s.rooms[r].pc.frame|);
    RoomTouches(s, s', r, s'.rooms[r], b);
  }

  lemma MemReadFill(s: State, c: nat, k: nat)
    requires MemOk(s) && CanReadFill(s, c, k)
    ensures MemOk(ReadFill(s, c, k))
  {
    hide MemOk, Stakes, Overwrite;
    var s', b := ReadFill(s, c, k), s.conns[c].reader.b;
    ReaderBuf(s, c, b);
    ReaderTouches(s, s', c, s'.conns[c], b);
  }

  lemma MemRoomFill(s: State, r: nat, k: nat)
    requires MemOk(s) && CanRoomFill(s, r, k)
    ensures MemOk(RoomFill(s, r, k))
  {
    hide MemOk, Stakes, Overwrite;
    var s', b := RoomFill(s, r, k), s.rooms[r].pc.b;
    RoomBuf(s, r, b);
    RoomTouches(s, s', r, s'.rooms[r], b);
  }

  lemma MemReadStore(s: State, c: nat)
    requires MemOk(s) && CanReadStore(s, c)
    ensures MemOk(ReadStore(s, c))
  {
    hide MemOk, Stakes;
    var s', b := ReadStore(s, c), s.conns[c].reader.b;
    ReaderBuf(s, c, b);
    ReaderTouches(s, s', c, s'.conns[c], b);
  }

  lemma MemRoomStore(s: State, r: nat)
    requires MemOk(s) && CanRoomStore(s, r) && RoomOk(s.mem, s.rooms[r])
    ensures MemOk(RoomStore(s, r))
  {
    hide MemOk, Stakes, Partial;
    var s', b := RoomStore(s, r), s.rooms[r].pc.b;
    RoomBuf(s, r, b);
    RoomTouches(s, s', r, s'.rooms[r], b);
  }

  lemma MemSendJoined(s: State, c: nat)
    requires MemOk(s) && CanSendJoined(s, c)
    ensures MemOk(SendJoined(s, c))
  {
    hide MemOk, ConnStake;
    var s' := SendJoined(s, c);
    forall b: nat ensures ConnStake(s'.conns[c], b) == ConnStake(s.conns[c], b) { SendJoinedBalance(s, c, b); }
    MemConnIdle(s, s', c, s'.conns[c]);
  }

  lemma SendJoinedBalance(s: State, c: nat, b: nat)
    requires CanSendJoined(s, c)
    ensures ConnStake(SendJoined(s, c).conns[c], b) == ConnStake(s.conns[c], b)
  {
    CountPush(s.conns[c].chan, s.conns[c].reader.b, b);
  }

  lemma MemWriteTake(s: State, c: nat)
    requires MemOk(s) && CanWriteTake(s, c)
    ensures MemOk(WriteTake(s, c))
  {
    hide MemOk, ConnStake;
    var s' := WriteTake(s, c);
    forall b: nat ensures ConnStake(s'.conns[c], b) == ConnStake(s.conns[c], b) { WriteTakeBalance(s, c, b); }
    MemConnIdle(s, s', c, s'.conns[c]);
  }

  lemma WriteTakeBalance(s: State, c: nat, b: nat)
    requires CanWriteTake(s, c)
    ensures ConnStake(WriteTake(s, c).conns[c], b) == ConnStake(s.conns[c], b)
  {
  }

  lemma MemWriteSome(s: State, c: nat, k: nat)
    requires MemOk(s) && CanWriteSome(s, c, k)
    ensures MemOk(WriteSome(s, c, k))
  {
    hide MemOk, Stakes;
    var s', b := WriteSome(s, c, k), s.conns[c].writer.b;
    WriterBuf(s, c, b);
    WriterTouches(s, s', c, s'.conns[c], b);
  }

  lemma MemWriteEnd(s: State, c: nat, failed: bool)
    requires MemOk(s) && CanWriteEnd(s, c, failed)
    ensures MemOk(WriteEnd(s, c, failed))
  {
    hide MemOk, Stakes;
    var s', b := WriteEnd(s, c, failed), s.conns[c].writer.b;
    WriterBuf(s, c, b);
    WriterTouches(s, s', c, s'.conns[c], b);
  }

  lemma MemWriteRelease(s: State, c: nat)
    requires MemOk(s) && CanWriteRelease(s, c)
    ensures MemOk(WriteRelease(s, c))
  {
    hide MemOk, Stakes;
    var s', b := WriteRelease(s, c), s.conns[c].writer.b;
    WriterBuf(s, c, b);
    WriterTouches(s, s', c, s'.conns[c], b);
  }

  lemma MemRoomRelease(s: State, r: nat)
    requires MemOk(s) && CanRoomRelease(s, r)
    ensures MemOk(RoomRelease(s, r))
  {
    hide MemOk, Stakes;
    var s', b := RoomRelease(s, r), s.rooms[r].pc.b;
    RoomBuf(s, r, b);
    RoomTouches(s, s', r, s'.rooms[r], b);
  }

  lemma MemWritePut(s: State, c: nat)
    requires MemOk(s) && CanWritePut(s, c)
    ensures MemOk(WritePut(s, c))
  {
    hide MemOk, Stakes;
    var s', b := WritePut(s, c), s.conns[c].writer.b;
    WriterBuf(s, c, b);
    WriterTouches(s, s', c, s'.conns[c], b);
  }

  lemma MemRoomPut(s: State, r: nat)
    requires MemOk(s) && CanRoomPut(s, r) && RoomOk(s.mem, s.rooms[r])
    ensures MemOk(RoomPut(s, r))
  {
    hide MemOk, Stakes;
    var s', b := RoomPut(s, r), s.rooms[r].pc.b;
    RoomBuf(s, r, b);
    RoomTouches(s, s', r, s'.rooms[r], b);
  }

  /** One broadcast send: the reference moves from the room's list into the channel, or stays
      with the room until it is released. */
  lemma MemSend(s: State, r: nat)
    requires MemOk(s) && CanSend(s, r)
    ensures MemOk(SendOrDrop(s, r))
  {
    var s', c := SendOrDrop(s, r), s.rooms[r].pc.todo[0];
    var mid := s.(conns := s'.conns);
    forall x: nat ensures Stakes(s', x) == Stakes(s, x) {
      SendBalance(s, r, x);
      hide Stakes, ConnStake, RoomStake;
      ConnStep(s, mid, c, s'.conns[c], x);
      RoomStep(mid, s', r, s'.rooms[r], x);
    }
    MemSame(s, s');
  }

  lemma SendBalance(s: State, r: nat, x: nat)
    requires CanSend(s, r)
    ensures var s', c := SendOrDrop(s, r), s.rooms[r].pc.todo[0];
            Plus(ConnStake(s'.conns[c], x), RoomStake(s'.rooms[r].pc, x))
            == Plus(ConnStake(s.conns[c], x), RoomStake(s.rooms[r].pc, x))
  {
    hide Count, WriterStake, ReaderStake;
    CountPush(s.conns[s.rooms[r].pc.todo[0]].chan, s.rooms[r].pc.b, x);
  }

  /** Steps that move no reference. */
  lemma MemSame(s: State, s': State)
    requires MemOk(s) && s'.mem == s.mem && forall b: nat :: Stakes(s', b) == Stakes(s, b)
    ensures MemOk(s')
  {
    hide Stakes, BufOk;
  }

  lemma MemAccept(s: State)
    requires MemOk(s)
    ensures MemOk(s.(conns := s.conns + [FRESH_CONN]))
  {
    hide MemOk, ConnStake;
    var s' := s.(conns := s.conns + [FRESH_CONN]);
    forall b: nat ensures Stakes(s', b) == Stakes(s, b) { hide Stakes; AcceptStakes(s, b); }
    MemSame(s, s');
  }

  lemma AcceptStakes(s: State, b: nat)
    ensures Stakes(s.(conns := s.conns + [FRESH_CONN]), b) == Stakes(s, b)
  {
    hide ConnStake, RoomStake, Total, Plus;
    TotalAppend(s.conns, ConnStakeIn(b), FRESH_CONN);
    FreshHasNone(b);
    PlusNone(Total(s.conns, ConnStakeIn(b)));
  }

  lemma PlusNone(a: Stake)
    ensures Plus(a, NO_STAKE) == a
  {
  }

  lemma FreshHasNone(b: nat)
    ensures ConnStake(FRESH_CONN, b) == NO_STAKE
  {
  }

  lemma MemNewRoom(s: State, r: RoomAgent)
    requires MemOk(s) && r.pc == Idle
    ensures MemOk(s.(rooms := s.rooms + [r]))
  {
    hide MemOk, Stakes;
    var s' := s.(rooms := s.rooms + [r]);
    forall b: nat ensures Stakes(s', b) == Stakes(s, b) { NewRoomStakes(s, r, b); }
    MemSame(s, s');
  }

  lemma NewRoomStakes(s: State, r: RoomAgent, b: nat)
    requires r.pc == Idle
    ensures Stakes(s.(rooms := s.rooms + [r]), b) == Stakes(s, b)
  {
    hide ConnStake, Total, Plus;
    TotalAppend(s.rooms, RoomStakeIn(b), r);
    PlusNone(Total(s.rooms, RoomStakeIn(b)));
  }

  /** A room between broadcasts changes its state, or sets out for the next broadcast. */
  lemma MemRoomIdle(s: State, s': State, r: nat, x: RoomAgent)
    requires MemOk(s) && r < |s.rooms| && s'.mem == s.mem && s'.conns == s.conns && s'.rooms == s.rooms[r := x]
    requires (s.rooms[r].pc.Idle? || s.rooms[r].pc.Want?) && (x.pc.Idle? || x.pc.Want?)
    ensures MemOk(s')
  {
    hide MemOk, Stakes;
    forall b: nat ensures Stakes(s', b) == Stakes(s, b) { RoomStep(s, s', r, x, b); }
    MemSame(s, s');
  }

  /** A connection changes without taking or giving up a buffer. */
  lemma MemConnIdle(s: State, s': State, i: nat, c: Conn)
    requires MemOk(s) && i < |s.conns| && s'.mem == s.mem && s'.rooms == s.rooms && s'.conns == s.conns[i := c]
    requires forall b: nat :: ConnStake(c, b) == ConnStake(s.conns[i], b)
    ensures MemOk(s')
  {
    hide MemOk, Stakes, ConnStake;
    forall b: nat ensures Stakes(s', b) == Stakes(s, b) { ConnStep(s, s', i, c, b); }
    MemSame(s, s');
  }

  lemma MemCollect(s: State, b: nat)
    requires MemOk(s) && CanCollect(s, b)
    ensures MemOk(Collect(s, b))
  {
    hide Stakes;
    var s' := Collect(s, b);
    assert BufOk(s.mem[b], Stakes(s, b));
    assert forall x: nat :: Stakes(s', x) == Stakes(s, x) by { SameAgents(s, s'); }
    OneBuffer(s, s', b);
  }

  lemma SameAgents(s: State, s': State)
    requires s'.conns == s.conns && s'.rooms == s.rooms
    ensures forall x: nat :: Stakes(s', x) == Stakes(s, x)
  {
  }

  lemma MemStepAgents(s: State, a: G.Action)
    requires MemOk(s) && Enabled(s, a)
    requires a.Accept? || a.NewRoom? || a.Join? || a.Move? || a.Leave? || a.Tick? || a.WriteQuit?
    ensures MemOk(Apply(s, a))
  {
    hide MemOk, SnapshotFrame, Recipients, Ticked, Joined, Moved, Left, G.JoinedFrame, Count;
    var s' := Apply(s, a);
    match a {
      case Accept => MemAccept(s);
      case NewRoom(id) => MemNewRoom(s, RoomAgent(id, EMPTY_GAME, Idle));
      case Move(r, _, _, _, _) => MemRoomIdle(s, s', r, s'.rooms[r]);
      case Leave(r, _) => MemRoomIdle(s, s', r, s'.rooms[r]);
      case Tick(r, _, _) => MemRoomIdle(s, s', r, s'.rooms[r]);
      case WriteQuit(c) => MemConnIdle(s, s', c, s'.conns[c]);
      case Join(r, c) =>
        var mid := s.(rooms := s'.rooms);
        MemRoomIdle(s, mid, r, s'.rooms[r]);
        MemConnIdle(mid, s', c, s'.conns[c]);
    }
  }

  lemma MemStepRoom(s: State, a: G.Action)
    requires MemOk(s) && Enabled(s, a) && (forall i | 0 <= i < |s.rooms| :: RoomOk(s.mem, s.rooms[i]))
    requires a.RoomGet? || a.RoomFill? || a.RoomStore? || a.SendOrDrop? || a.RoomRelease? || a.RoomPut?
    ensures MemOk(Apply(s, a))
  {
    hide MemOk, RoomOk, RoomGet, RoomFill, RoomStore, SendOrDrop, RoomRelease, RoomPut, CanGet;
    match a {
      case RoomGet(r, src) => MemRoomGet(s, r, src);
      case RoomFill(r, k) => MemRoomFill(s, r, k);
      case RoomStore(r) => MemRoomStore(s, r);
      case SendOrDrop(r) => MemSend(s, r);
      case RoomRelease(r) => MemRoomRelease(s, r);
      case RoomPut(r) => MemRoomPut(s, r);
    }
  }

  lemma MemStepConn(s: State, a: G.Action)
    requires MemOk(s) && Enabled(s, a)
    requires a.ReadGet? || a.ReadFill? || a.ReadStore? || a.SendJoined? || a.WriteTake? || a.WriteSome?
             || a.WriteEnd? || a.WriteRelease? || a.WritePut? || a.Collect?
    ensures MemOk(Apply(s, a))
  {
    hide MemOk, ReadGet, ReadFill, ReadStore, SendJoined, WriteTake, WriteSome, WriteEnd, WriteRelease, WritePut,
         Collect;
    hide CanReadGet, CanReadFill, CanReadStore, CanSendJoined, CanWriteTake, CanWriteSome, CanWriteEnd;
    match a {
      case ReadGet(c, src) => MemReadGet(s, c, src);
      case ReadFill(c, k) => MemReadFill(s, c, k);
      case ReadStore(c) => MemReadStore(s, c);
      case SendJoined(c) => MemSendJoined(s, c);
      case WriteTake(c) => MemWriteTake(s, c);
      case WriteSome(c, k) => MemWriteSome(s, c, k);
      case WriteEnd(c, failed) => MemWriteEnd(s, c, failed);
      case WriteRelease(c) => MemWriteRelease(s, c);
      case WritePut(c) => MemWritePut(s, c);
      case Collect(b) => MemCollect(s, b);
    }
  }

  lemma MemStep(s: State, a: G.Action)
    requires Inv(s) && Enabled(s, a)
    ensures MemOk(Apply(s, a))
  {
    hide MemOk, RoomOk, ConnOk, Enabled, Apply;
    match a {
      case Accept => MemStepAgents(s, a);
      case NewRoom(_) => MemStepAgents(s, a);
      case Join(_, _) => MemStepAgents(s, a);
      case Move(_, _, _, _, _) => MemStepAgents(s, a);
      case Leave(_, _) => MemStepAgents(s, a);
      case Tick(_, _, _) => MemStepAgents(s, a);
      case WriteQuit(_) => MemStepAgents(s, a);
      case RoomGet(_, _) => MemStepRoom(s, a);
      case RoomFill(_, _) => MemStepRoom(s, a);
      case RoomStore(_) => MemStepRoom(s, a);
      case SendOrDrop(_) => MemStepRoom(s, a);
      case RoomRelease(_) => MemStepRoom(s, a);
      case RoomPut(_) => MemStepRoom(s, a);
      case _ => MemStepConn(s, a);
    }
  }

  // ---- one step: contents ----

  /** Two agents never fill the same buffer. */
  lemma ConnsFillApart(s: State, i: nat, j: nat)
    requires MemOk(s) && i < j < |s.conns| && s.conns[i].reader.RFill? && s.conns[j].reader.RFill?
    ensures s.conns[i].reader.b != s.conns[j].reader.b
  {
    hide MemOk, Count, WriterStake, RoomStake;
    var b := s.conns[j].reader.b;
    TotalWithinTwo(s.conns, ConnStakeIn(b), i, j);
    AtMostOneFiller(s, b);
  }

  lemma RoomsFillApart(s: State, i: nat, j: nat)
    requires MemOk(s) && i < j < |s.rooms| && s.rooms[i].pc.Fill? && s.rooms[j].pc.Fill?
    ensures s.rooms[i].pc.b != s.rooms[j].pc.b
  {
    hide MemOk, Stakes;
    var b := s.rooms[j].pc.b;
    AtMostOneFiller(s, b);
    if s.rooms[i].pc.b == b { TwoRoomFillers(s, b, i, j); }
  }

  lemma TwoRoomFillers(s: State, b: nat, i: nat, j: nat)
    requires i < j < |s.rooms| && s.rooms[i].pc.Fill? && s.rooms[j].pc.Fill?
    requires s.rooms[i].pc.b == b && s.rooms[j].pc.b == b
    ensures Stakes(s, b).filling >= 2
  {
    hide ConnStake, RoomStake;
    TotalWithinTwo(s.rooms, RoomStakeIn(b), i, j);
    RoomFills(s.rooms[i].pc, b);
    RoomFills(s.rooms[j].pc, b);
  }

  lemma RoomFills(pc: RoomPc, b: nat)
    requires pc.Fill? && pc.b == b
    ensures RoomStake(pc, b).filling == 1
  {
  }

  lemma ConnRoomFillApart(s: State, i: nat, j: nat)
    requires MemOk(s) && i < |s.conns| && j < |s.rooms| && s.conns[i].reader.RFill? && s.rooms[j].pc.Fill?
    ensures s.conns[i].reader.b != s.rooms[j].pc.b
  {
    hide MemOk, Count, WriterStake;
    var b := s.rooms[j].pc.b;
    TotalWithin(s.conns, ConnStakeIn(b), i);
    TotalWithin(s.rooms, RoomStakeIn(b), j);
    AtMostOneFiller(s, b);
  }

  lemma AtMostOneFiller(s: State, b: nat)
    requires MemOk(s)
    ensures Stakes(s, b).filling <= 1
  {
    hide Stakes;
    assert if b < |s.mem| then BufOk(s.mem[b], Stakes(s, b)) else Stakes(s, b) == NO_STAKE;
  }

  /** The bytes changed at most at `b`. */
  ghost predicate BytesExcept(s: State, s': State, b: nat)
  {
    forall x: nat | x != b && x < |s.mem| :: At(s'.mem, x).bytes == At(s.mem, x).bytes
  }

  /** Whatever is filled exists. */
  lemma FillerBuf(s: State)
    requires MemOk(s)
    ensures forall i | 0 <= i < |s.conns| && s.conns[i].reader.RFill? :: s.conns[i].reader.b < |s.mem|
    ensures forall i | 0 <= i < |s.rooms| && s.rooms[i].pc.Fill? :: s.rooms[i].pc.b < |s.mem|
  {
    hide MemOk, Stakes, Count;
    forall i | 0 <= i < |s.conns| && s.conns[i].reader.RFill? ensures s.conns[i].reader.b < |s.mem| {
      ReaderBuf(s, i, s.conns[i].reader.b);
    }
    forall i | 0 <= i < |s.rooms| && s.rooms[i].pc.Fill? ensures s.rooms[i].pc.b < |s.mem| {
      RoomBuf(s, i, s.rooms[i].pc.b);
    }
  }

  /** A reader that is filling a buffer disturbs nobody else. */
  lemma ConnFillInv(s: State, s': State, i: nat, c: Conn)
    requires Inv(s) && MemOk(s') && i < |s.conns| && s'.conns == s.conns[i := c] && s'.rooms == s.rooms
    requires c.reader.RFill? && BytesExcept(s, s', c.reader.b) && ConnOk(s'.mem, c)
    ensures Inv(s')
  {
    hide MemOk, Partial;
    FillerBuf(s);
    forall j | 0 <= j < |s'.conns| ensures ConnOk(s'.mem, s'.conns[j]) {
      if j != i && s'.conns[j].reader.RFill? {
        if i < j { ConnsFillApart(s', i, j); } else { ConnsFillApart(s', j, i); }
        PartialKept(s.mem, s'.mem, s.conns[j].reader.b, s.conns[j].reader.frame, s.conns[j].reader.off);
      }
    }
    forall j | 0 <= j < |s'.rooms| ensures RoomOk(s'.mem, s'.rooms[j]) {
      if s'.rooms[j].pc.Fill? {
        ConnRoomFillApart(s', i, j);
        PartialKept(s.mem, s'.mem, s.rooms[j].pc.b, s.rooms[j].pc.frame, s.rooms[j].pc.off);
      }
    }
  }

  lemma RoomFillInv(s: State, s': State, i: nat, r: RoomAgent)
    requires Inv(s) && MemOk(s') && i < |s.rooms| && s'.rooms == s.rooms[i := r] && s'.conns == s.conns
    requires r.pc.Fill? && BytesExcept(s, s', r.pc.b) && RoomOk(s'.mem, r)
    ensures Inv(s')
  {
    hide MemOk, Partial;
    FillerBuf(s);
    forall j | 0 <= j < |s'.rooms| ensures RoomOk(s'.mem, s'.rooms[j]) {
      if j != i && s'.rooms[j].pc.Fill? {
        if i < j { RoomsFillApart(s', i, j); } else { RoomsFillApart(s', j, i); }
        PartialKept(s.mem, s'.mem, s.rooms[j].pc.b, s.rooms[j].pc.frame, s.rooms[j].pc.off);
      }
    }
    forall j | 0 <= j < |s'.conns| ensures ConnOk(s'.mem, s'.conns[j]) {
      if s'.conns[j].reader.RFill? {
        ConnRoomFillApart(s', j, i);
        PartialKept(s.mem, s'.mem, s.conns[j].reader.b, s.conns[j].reader.frame, s.conns[j].reader.off);
      }
    }
  }

  lemma PartialKept(mem: seq<Buf>, mem': seq<Buf>, b: nat, frame: Bytes, off: nat)
    requires Partial(mem, b, frame, off) && At(mem', b).bytes == At(mem, b).bytes
    ensures Partial(mem', b, frame, off)
  {
  }

  /** Filling the next part of a frame keeps what is already there. */
  lemma CopyPartial(s: State, b: nat, frame: Bytes, off: nat, k: nat)
    requires b < |s.mem| && Partial(s.mem, b, frame, off) && off + k <= |frame|
    ensures Partial(Copy(s, b, frame, off, k).mem, b, frame, off + k)
  {
    var bytes := s.mem[b].bytes;
    var bytes' := Overwrite(bytes, off, frame[off..off + k]);
    assert bytes'[..off + k] == frame[..off] + frame[off..off + k];
    assert frame[..off] + frame[off..off + k] == frame[..off + k];
  }

  lemma InvReadGet(s: State, c: nat, src: G.Source)
    requires Inv(s) && CanReadGet(s, c, src) && MemOk(ReadGet(s, c, src))
    ensures Inv(ReadGet(s, c, src))
  {
    hide MemOk;
    GetBuf(s, src, |s.conns[c].reader.frame|);
    ConnFillInv(s, ReadGet(s, c, src), c, ReadGet(s, c, src).conns[c]);
  }

  lemma InvRoomGet(s: State, r: nat, src: G.Source)
    requires Inv(s) && CanRoomGet(s, r, src) && MemOk(RoomGet(s, r, src))
    ensures Inv(RoomGet(s, r, src))
  {
    hide MemOk;
    GetBuf(s, src, |s.rooms[r].pc.frame|);
    RoomFillInv(s, RoomGet(s, r, src), r, RoomGet(s, r, src).rooms[r]);
  }

  lemma InvReadFill(s: State, c: nat, k: nat)
    requires Inv(s) && CanReadFill(s, c, k) && MemOk(ReadFill(s, c, k))
    ensures Inv(ReadFill(s, c, k))
  {
    hide MemOk, Overwrite;
    var x := s.conns[c].reader;
    FillerBuf(s);
    CopyPartial(s, x.b, x.frame, x.off, k);
    ConnFillInv(s, ReadFill(s, c, k), c, ReadFill(s, c, k).conns[c]);
  }

  lemma InvRoomFill(s: State, r: nat, k: nat)
    requires Inv(s) && CanRoomFill(s, r, k) && MemOk(RoomFill(s, r, k))
    ensures Inv(RoomFill(s, r, k))
  {
    hide MemOk, Overwrite;
    var x := s.rooms[r].pc;
    FillerBuf(s);
    CopyPartial(s, x.b, x.frame, x.off, k);
    RoomFillInv(s, RoomFill(s, r, k), r, RoomFill(s, r, k).rooms[r]);
  }

  predicate Fills(a: G.Action) { a.ReadGet? || a.ReadFill? || a.RoomGet? || a.RoomFill? }

  /** Every other action leaves all bytes alone. */
  lemma BytesKept(s: State, a: G.Action)
    requires Enabled(s, a) && !Fills(a)
    ensures forall b: nat :: At(Apply(s, a).mem, b).bytes == At(s.mem, b).bytes
  {
    hide SnapshotFrame, Recipients, Ticked, Joined, Moved, Left, G.JoinedFrame, Visits;
  }

  /** The remaining actions: what each changed agent must still satisfy. */
  lemma AgentsKept(s: State, a: G.Action)
    requires Inv(s) && Enabled(s, a) && !Fills(a)
    ensures var s' := Apply(s, a);
            && (forall i | 0 <= i < |s'.conns| :: ConnOk(s'.mem, s'.conns[i]))
            && (forall i | 0 <= i < |s'.rooms| :: RoomOk(s'.mem, s'.rooms[i]))
  {
    hide Inv, Enabled, Apply, ConnOk, RoomOk;
    var s' := Apply(s, a);
    forall i | 0 <= i < |s'.conns| ensures ConnOk(s'.mem, s'.conns[i]) { ConnKept(s, a, i); }
    forall i | 0 <= i < |s'.rooms| ensures RoomOk(s'.mem, s'.rooms[i]) { RoomKept(s, a, i); }
  }

  lemma ConnKept(s: State, a: G.Action, i: nat)
    requires Inv(s) && Enabled(s, a) && !Fills(a) && i < |Apply(s, a).conns|
    ensures ConnOk(Apply(s, a).mem, Apply(s, a).conns[i])
  {
    hide MemOk, Partial, SnapshotFrame, Recipients, Ticked, Joined, Moved, Left, G.JoinedFrame, Visits, RoomOk;
    BytesKept(s, a);
    var s' := Apply(s, a);
    var x := s'.conns[i].reader;
    if x.RFill? {
      assert i < |s.conns| && s.conns[i].reader == x;
      assert ConnOk(s.mem, s.conns[i]);
      PartialKept(s.mem, s'.mem, x.b, x.frame, x.off);
    }
  }

  lemma RoomKept(s: State, a: G.Action, i: nat)
    requires Inv(s) && Enabled(s, a) && !Fills(a) && i < |Apply(s, a).rooms|
    ensures RoomOk(Apply(s, a).mem, Apply(s, a).rooms[i])
  {
    hide MemOk, Partial, SnapshotFrame, Ticked, Joined, Moved, Left, G.JoinedFrame, Visits, ConnOk;
    BytesKept(s, a);
    var s' := Apply(s, a);
    var pc := s'.rooms[i].pc;
    if i < |s.rooms| {
      assert RoomOk(s.mem, s.rooms[i]);
      if s.rooms[i].pc == pc {
        if pc.Fill? { PartialKept(s.mem, s'.mem, pc.b, pc.frame, pc.off); }
      } else {
        match a {
          case Tick(_, _, dests) => VisitsGame(s.rooms[i].game, dests);
          case RoomRelease(_) => if pc.PutBack? { LastReleased(s, i); }
          case _ =>
        }
      }
    }
  }

  /** A tick reaches as many recipients as it stores in the count. */
  lemma VisitsGame(g: Game, dests: seq<int>)
    requires Visits(dests, g.conns.Keys)
    ensures |dests| == |Ticked(g).conns|
  {
    VisitsLength(dests, g.conns.Keys);
  }

  /** A count that reaches zero leaves no recipient unserved. */
  lemma LastReleased(s: State, r: nat)
    requires MemOk(s) && CanRoomRelease(s, r) && At(s.mem, s.rooms[r].pc.b).ref == 1
    ensures s.rooms[r].pc.todo == []
  {
    hide MemOk, Stakes;
    RoomBuf(s, r, s.rooms[r].pc.b);
  }

  /** Every step of every agent keeps the invariant. */
  lemma InvStep(s: State, a: G.Action)
    requires Inv(s) && Enabled(s, a)
    ensures Inv(Apply(s, a))
  {
    hide Inv, MemOk, Enabled, Apply;
    MemKnown(s);
    MemStep(s, a);
    if Fills(a) { InvFill(s, a); } else { InvOther(s, a); }
  }

  lemma MemKnown(s: State)
    requires Inv(s)
    ensures MemOk(s)
  {
  }

  lemma InvFill(s: State, a: G.Action)
    requires Inv(s) && Enabled(s, a) && MemOk(Apply(s, a)) && Fills(a)
    ensures Inv(Apply(s, a))
  {
    hide Inv, MemOk, ReadGet, ReadFill, RoomGet, RoomFill;
    match a {
      case ReadGet(c, src) => InvReadGet(s, c, src);
      case ReadFill(c, k) => InvReadFill(s, c, k);
      case RoomGet(r, src) => InvRoomGet(s, r, src);
      case RoomFill(r, k) => InvRoomFill(s, r, k);
    }
  }

  /** The actions that fill nothing leave the fillers what they were. */
  lemma InvOther(s: State, a: G.Action)
    requires Inv(s) && Enabled(s, a) && MemOk(Apply(s, a)) && !Fills(a)
    ensures Inv(Apply(s, a))
  {
    hide MemOk, Enabled, Apply, ConnOk, RoomOk;
    AgentsKept(s, a);
  }

  // ---- runs ----

  predicate Possible(s: State, run: seq<G.Action>)
    decreases |run|
  {
    run == [] || (Enabled(s, run[0]) && Possible(Apply(s, run[0]), run[1..]))
  }

  function Exec(s: State, run: seq<G.Action>): State
    requires Possible(s, run)
    decreases |run|
  {
    if run == [] then s else Exec(Apply(s, run[0]), run[1..])
  }

  lemma {:induction false} InvRun(s: State, run: seq<G.Action>)
    requires Inv(s) && Possible(s, run)
    ensures Inv(Exec(s, run))
    decreases |run|
  {
    hide Inv, Enabled, Apply;
    if run != [] {
      InvStep(s, run[0]);
      InvRun(Apply(s, run[0]), run[1..]);
    }
  }

  lemma InvInit()
    ensures Inv(INIT)
  {
    hide ConnStake, RoomStake, BufOk, ConnOk, RoomOk;
    forall b: nat ensures Stakes(INIT, b) == NO_STAKE {
      assert Total(INIT.conns, ConnStakeIn(b)) == NO_STAKE && Total(INIT.rooms, RoomStakeIn(b)) == NO_STAKE;
    }
  }

  /** In every reachable state, for every buffer: the count is the number of references still to
      be released; the buffer is in exactly one place; it was put back at most once per hand-out,
      and its count reached zero exactly once for every put done or about to be done. */
  lemma CountsAreReferences(run: seq<G.Action>, b: nat)
    requires Possible(INIT, run) && b < |Exec(INIT, run).mem|
    ensures var s := Exec(INIT, run);
            var x, st := s.mem[b], Stakes(s, b);
            && x.ref == st.held
            && x.pooled + One(x.gone) + st.filling + st.putting + One(st.held > 0) == 1
            && x.zeros == x.puts + st.putting
            && x.puts <= x.gets <= x.puts + 1
            && (x.gets == x.puts <==> x.pooled == 1 || x.gone)
  {
    hide Stakes, Exec, Possible;
    InvInit();
    InvRun(INIT, run);
    var s := Exec(INIT, run);
    assert BufOk(s.mem[b], Stakes(s, b));
  }

  predicate WriterMentions(w: WriterPc, b: nat)
  {
    match w case Writing(x, _) => x == b case WRelease(x, _) => x == b case WPut(x, _) => x == b case _ => false
  }

  predicate ReaderMentions(r: ReaderPc, b: nat)
  {
    match r case RFill(x, _, _) => x == b case RSend(x) => x == b case _ => false
  }

  predicate RoomMentions(pc: RoomPc, b: nat)
  {
    match pc
    case Fill(x, _, _, _, _) => x == b
    case Send(x, _) => x == b
    case Release(x, _) => x == b
    case PutBack(x, _) => x == b
    case _ => false
  }

  /** In every reachable state, a pooled buffer is in the pool once, and no channel, writer, reader
      or room can reach it. */
  lemma PooledIsUnreachable(run: seq<G.Action>, b: nat)
    requires Possible(INIT, run) && At(Exec(INIT, run).mem, b).pooled > 0
    ensures var s := Exec(INIT, run);
            && s.mem[b].pooled == 1 && s.mem[b].ref == 0
            && (forall i | 0 <= i < |s.conns| ::
                  b !in s.conns[i].chan && !WriterMentions(s.conns[i].writer, b)
                    && !ReaderMentions(s.conns[i].reader, b))
            && (forall i | 0 <= i < |s.rooms| :: !RoomMentions(s.rooms[i].pc, b))
  {
    hide Inv, Exec, Possible, WriterMentions, ReaderMentions, RoomMentions;
    InvInit();
    InvRun(INIT, run);
    NoHolders(Exec(INIT, run), b);
  }

  lemma NoHolders(s: State, b: nat)
    requires Inv(s) && At(s.mem, b).pooled > 0
    ensures s.mem[b].pooled == 1 && s.mem[b].ref == 0
    ensures forall i | 0 <= i < |s.conns| ::
              b !in s.conns[i].chan && !WriterMentions(s.conns[i].writer, b) && !ReaderMentions(s.conns[i].reader, b)
    ensures forall i | 0 <= i < |s.rooms| :: !RoomMentions(s.rooms[i].pc, b)
  {
    hide Stakes, Count, Partial;
    assert BufOk(s.mem[b], Stakes(s, b));
    forall i | 0 <= i < |s.conns|
      ensures b !in s.conns[i].chan && !WriterMentions(s.conns[i].writer, b) && !ReaderMentions(s.conns[i].reader, b)
    {
      StakeWithin(s, i, b);
      CountIn(s.conns[i].chan, b);
    }
    forall i | 0 <= i < |s.rooms| ensures !RoomMentions(s.rooms[i].pc, b) {
      assert RoomOk(s.mem, s.rooms[i]);
      RoomStakeWithin(s, i, b);
    }
  }

  lemma RoomStakeWithin(s: State, i: nat, b: nat)
    requires i < |s.rooms|
    ensures Within(RoomStake(s.rooms[i].pc, b), Stakes(s, b))
  {
    hide ConnStake, RoomStake;
    TotalWithin(s.rooms, RoomStakeIn(b), i);
  }

  /** In every reachable state, from the moment its count is stored until its last release, no step
      of anyone changes a buffer. */
  lemma Frozen(run: seq<G.Action>, a: G.Action, b: nat)
    requires Possible(INIT, run) && Enabled(Exec(INIT, run), a) && Stakes(Exec(INIT, run), b).held > 0
    ensures At(Apply(Exec(INIT, run), a).mem, b).bytes == At(Exec(INIT, run).mem, b).bytes
  {
    hide Inv, Exec, Possible, Enabled, Apply, Stakes;
    InvInit();
    InvRun(INIT, run);
    StepKeepsBytes(Exec(INIT, run), a, b);
  }

  lemma StepKeepsBytes(s: State, a: G.Action, b: nat)
    requires Inv(s) && Enabled(s, a) && Stakes(s, b).held > 0
    ensures At(Apply(s, a).mem, b).bytes == At(s.mem, b).bytes
  {
    if Fills(a) { FillsOther(s, a, b); } else { BytesKept(s, a); }
  }

  lemma FillsOther(s: State, a: G.Action, b: nat)
    requires MemOk(s) && Enabled(s, a) && Stakes(s, b).held > 0 && Fills(a)
    ensures At(Apply(s, a).mem, b).bytes == At(s.mem, b).bytes
  {
    hide MemOk, Stakes, Count, Overwrite;
    match a {
      case ReadFill(c, _) => ReaderBuf(s, c, s.conns[c].reader.b);
      case RoomFill(r, _) => RoomBuf(s, r, s.rooms[r].pc.b);
      case ReadGet(c, src) => GetBuf(s, src, |s.conns[c].reader.frame|);
      case RoomGet(r, src) => GetBuf(s, src, |s.rooms[r].pc.frame|);
    }
  }
}
