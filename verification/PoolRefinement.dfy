/** The pooled server refines the allocating one: replacing every buffer by its bytes turns
    each of its runs into a run of GoServer in which every socket gets the same bytes. */
module PoolRefinement {
  import opened Wire
  import opened Room
  import opened Pool
  import opened PoolSafety
  import G = GoServer

  function Contents(mem: seq<Buf>, b: nat): Bytes { At(mem, b).bytes }

  function ChanView(mem: seq<Buf>, chan: seq<nat>): seq<Bytes>
  {
    seq(|chan|, i requires 0 <= i < |chan| => Contents(mem, chan[i]))
  }

  function WriterView(mem: seq<Buf>, w: WriterPc): G.WriterPc
  {
    match w
    case WIdle => G.WIdle
    case Writing(b, pos) => G.Writing(Contents(mem, b), pos)
    case WRelease(_, failed) => if failed then G.WExited else G.WIdle
    case WPut(_, failed) => if failed then G.WExited else G.WIdle
    case WExited => G.WExited
  }

  function ReaderView(mem: seq<Buf>, r: ReaderPc): G.ReaderPc
  {
    match r
    case RIdle => G.RIdle
    case RWant(frame) => G.RSend(frame)
    case RFill(_, frame, _) => G.RSend(frame)
    case RSend(b) => G.RSend(Contents(mem, b))
  }

  function RoomPcView(mem: seq<Buf>, pc: RoomPc): G.RoomPc
  {
    match pc
    case Idle => G.Idle
    case Want(frame, _, todo) => G.AfterSend(frame, todo)
    case Fill(_, frame, _, _, todo) => G.AfterSend(frame, todo)
    case Send(b, todo) => G.AfterSend(Contents(mem, b), todo)
    case Release(b, todo) => G.AfterSend(Contents(mem, b), todo)
    case PutBack(b, todo) => G.AfterSend(Contents(mem, b), todo)
  }

  function ConnView(mem: seq<Buf>, c: Conn): G.Conn
  {
    G.Conn(ChanView(mem, c.chan), WriterView(mem, c.writer), ReaderView(mem, c.reader), c.out, c.drops)
  }

  function RoomView(mem: seq<Buf>, r: RoomAgent): G.RoomAgent
  {
    G.RoomAgent(r.id, r.game, RoomPcView(mem, r.pc))
  }

  function View(s: State): G.State
  {
    G.State(
      seq(|s.conns|, i requires 0 <= i < |s.conns| => ConnView(s.mem, s.conns[i])),
      seq(|s.rooms|, i requires 0 <= i < |s.rooms| => RoomView(s.mem, s.rooms[i])),
      s.nextPid)
  }

  // ---- a held buffer looks the same before and after ----

  ghost predicate HeldKept(s: State, mem: seq<Buf>)
  {
    forall b: nat | Stakes(s, b).held > 0 :: Contents(mem, b) == Contents(s.mem, b)
  }

  lemma ConnViewKept(s: State, mem: seq<Buf>, i: nat)
    requires HeldKept(s, mem) && i < |s.conns|
    ensures ConnView(mem, s.conns[i]) == ConnView(s.mem, s.conns[i])
  {
    hide Stakes, Count, Contents;
    var c := s.conns[i];
    forall k | 0 <= k < |c.chan| ensures Contents(mem, c.chan[k]) == Contents(s.mem, c.chan[k]) {
      StakeWithin(s, i, c.chan[k]);
      CountIn(c.chan, c.chan[k]);
    }
    assert ChanView(mem, c.chan) == ChanView(s.mem, c.chan);
    if c.writer.Writing? { StakeWithin(s, i, c.writer.b); }
    if c.reader.RSend? { StakeWithin(s, i, c.reader.b); }
  }

  lemma RoomViewKept(s: State, mem: seq<Buf>, i: nat)
    requires HeldKept(s, mem) && i < |s.rooms| && RoomOk(s.mem, s.rooms[i])
    ensures RoomView(mem, s.rooms[i]) == RoomView(s.mem, s.rooms[i])
  {
    hide Stakes, Contents, Partial;
    var pc := s.rooms[i].pc;
    if pc.Send? || pc.Release? { RoomStakeWithin(s, i, pc.b); }
  }

  /** All agents but connection `i` look the same. */
  lemma ViewConn(s: State, s': State, i: nat, c: Conn)
    requires Inv(s) && HeldKept(s, s'.mem) && i < |s.conns| && s'.conns == s.conns[i := c] && s'.rooms == s.rooms
    ensures View(s') == View(s).(conns := View(s).conns[i := ConnView(s'.mem, c)], nextPid := s'.nextPid)
  {
    hide MemOk, ConnView, RoomView, RoomOk, ConnOk, HeldKept;
    forall j | 0 <= j < |s.conns| ensures ConnView(s'.mem, s.conns[j]) == ConnView(s.mem, s.conns[j]) {
      ConnViewKept(s, s'.mem, j);
    }
    forall j | 0 <= j < |s.rooms| ensures RoomView(s'.mem, s.rooms[j]) == RoomView(s.mem, s.rooms[j]) {
      RoomViewKept(s, s'.mem, j);
    }
    assert View(s').conns == View(s).conns[i := ConnView(s'.mem, c)];
    assert View(s').rooms == View(s).rooms;
  }

  lemma ViewRoom(s: State, s': State, i: nat, r: RoomAgent)
    requires Inv(s) && HeldKept(s, s'.mem) && i < |s.rooms| && s'.rooms == s.rooms[i := r] && s'.conns == s.conns
    ensures View(s') == View(s).(rooms := View(s).rooms[i := RoomView(s'.mem, r)], nextPid := s'.nextPid)
  {
    hide MemOk, ConnView, RoomView, RoomOk, ConnOk, HeldKept;
    forall j | 0 <= j < |s.conns| ensures ConnView(s'.mem, s.conns[j]) == ConnView(s.mem, s.conns[j]) {
      ConnViewKept(s, s'.mem, j);
    }
    forall j | 0 <= j < |s.rooms| ensures RoomView(s'.mem, s.rooms[j]) == RoomView(s.mem, s.rooms[j]) {
      RoomViewKept(s, s'.mem, j);
    }
    assert View(s').conns == View(s).conns;
    assert View(s').rooms == View(s).rooms[i := RoomView(s'.mem, r)];
  }

  lemma StepKeepsHeld(s: State, a: G.Action)
    requires Inv(s) && Enabled(s, a)
    ensures HeldKept(s, Apply(s, a).mem)
  {
    hide Inv, Enabled, Apply, Stakes;
    forall b: nat | Stakes(s, b).held > 0 ensures Contents(Apply(s, a).mem, b) == Contents(s.mem, b) {
      StepKeepsBytes(s, a, b);
    }
  }

  // ---- steps of the pooled server alone are invisible ----

  /** Storing the count turns the finished buffer into the frame. */
  lemma Finished(mem: seq<Buf>, b: nat, frame: Bytes)
    requires Partial(mem, b, frame, |frame|)
    ensures Contents(mem, b) == frame
  {
    assert At(mem, b).bytes[..|frame|] == At(mem, b).bytes && frame[..|frame|] == frame;
  }

  lemma InternalReader(s: State, a: G.Action)
    requires Inv(s) && Enabled(s, a) && (a.ReadGet? || a.ReadFill? || a.ReadStore?)
    ensures View(Apply(s, a)) == View(s)
  {
    StepKeepsHeld(s, a);
    hide MemOk, HeldKept, RoomOk, Overwrite, Partial, ChanView, Contents, View;
    var s', c := Apply(s, a), a.c;
    ViewConn(s, s', c, s'.conns[c]);
    ViewSame(s, c);
    ConnViewKept(s, s'.mem, c);
    if a.ReadStore? {
      var x := s.conns[c].reader;
      assert ConnOk(s.mem, s.conns[c]);
      Finished(s.mem, x.b, x.frame);
      StoreContents(s, x.b, 1);
    }
    assert ConnView(s'.mem, s'.conns[c]) == ConnView(s.mem, s.conns[c]);
  }

  lemma StoreContents(s: State, b: nat, n: int)
    ensures Contents(Store(s, b, n).mem, b) == Contents(s.mem, b)
  {
  }

  lemma ViewSame(s: State, i: nat)
    requires i < |s.conns|
    ensures |View(s).conns| == |s.conns| && View(s).conns[i] == ConnView(s.mem, s.conns[i])
    ensures View(s).conns[i := ConnView(s.mem, s.conns[i])] == View(s).conns
    ensures View(s).nextPid == s.nextPid
  {
    hide ConnView, RoomView;
  }

  lemma ViewSameRoom(s: State, i: nat)
    requires i < |s.rooms|
    ensures |View(s).rooms| == |s.rooms| && View(s).rooms[i] == RoomView(s.mem, s.rooms[i])
    ensures View(s).rooms[i := RoomView(s.mem, s.rooms[i])] == View(s).rooms
    ensures View(s).nextPid == s.nextPid
  {
    hide ConnView, RoomView;
  }

  lemma InternalRoom(s: State, a: G.Action)
    requires Inv(s) && Enabled(s, a) && (a.RoomGet? || a.RoomFill? || a.RoomStore? || a.RoomRelease? || a.RoomPut?)
    ensures View(Apply(s, a)) == View(s)
  {
    StepKeepsHeld(s, a);
    hide MemOk, HeldKept, ConnOk, Overwrite, Partial, Contents, View;
    var s', r := Apply(s, a), a.r;
    ViewRoom(s, s', r, s'.rooms[r]);
    ViewSameRoom(s, r);
    assert RoomOk(s.mem, s.rooms[r]);
    RoomViewKept(s, s'.mem, r);
    if a.RoomStore? {
      var pc := s.rooms[r].pc;
      Finished(s.mem, pc.b, pc.frame);
      StoreContents(s, pc.b, pc.nconns);
    }
    assert RoomView(s'.mem, s'.rooms[r]) == RoomView(s.mem, s.rooms[r]);
  }

  lemma InternalWriter(s: State, a: G.Action)
    requires Inv(s) && Enabled(s, a) && (a.WriteRelease? || a.WritePut?)
    ensures View(Apply(s, a)) == View(s)
  {
    StepKeepsHeld(s, a);
    hide MemOk, HeldKept, RoomOk, ConnOk, Partial, ChanView, Contents, View;
    var s', c := Apply(s, a), a.c;
    ViewConn(s, s', c, s'.conns[c]);
    ViewSame(s, c);
    ConnViewKept(s, s'.mem, c);
    assert ConnView(s'.mem, s'.conns[c]) == ConnView(s.mem, s.conns[c]);
  }

  lemma InternalCollect(s: State, b: nat)
    requires Inv(s) && Enabled(s, G.Collect(b))
    ensures View(Apply(s, G.Collect(b))) == View(s)
  {
    StepKeepsHeld(s, G.Collect(b));
    hide MemOk, HeldKept, RoomOk, ConnOk, Partial, ConnView, RoomView;
    var s' := Apply(s, G.Collect(b));
    forall j | 0 <= j < |s.conns| ensures ConnView(s'.mem, s.conns[j]) == ConnView(s.mem, s.conns[j]) {
      ConnViewKept(s, s'.mem, j);
    }
    forall j | 0 <= j < |s.rooms| ensures RoomView(s'.mem, s.rooms[j]) == RoomView(s.mem, s.rooms[j]) {
      RoomViewKept(s, s'.mem, j);
    }
  }

  // ---- the other steps are steps of the allocating server ----

  lemma VisibleWriter(s: State, a: G.Action)
    requires Inv(s) && Enabled(s, a) && (a.WriteTake? || a.WriteSome? || a.WriteEnd? || a.WriteQuit?)
    ensures G.Enabled(View(s), a) && View(Apply(s, a)) == G.Apply(View(s), a)
  {
    StepKeepsHeld(s, a);
    hide MemOk, HeldKept, RoomOk, ConnOk, Partial, View, At;
    var s', c := Apply(s, a), a.c;
    ViewConn(s, s', c, s'.conns[c]);
    ViewSame(s, c);
    if a.WriteTake? { ChanViewPop(s.mem, s.conns[c].chan); } else { hide ChanView; }
    assert ConnView(s'.mem, s'.conns[c]) == G.Apply(View(s), a).conns[c];
  }

  lemma ChanViewPop(mem: seq<Buf>, chan: seq<nat>)
    requires chan != []
    ensures ChanView(mem, chan) != [] && ChanView(mem, chan)[0] == Contents(mem, chan[0])
    ensures ChanView(mem, chan)[1..] == ChanView(mem, chan[1..])
  {
  }

  lemma ChanViewPush(mem: seq<Buf>, chan: seq<nat>, b: nat)
    ensures ChanView(mem, chan + [b]) == ChanView(mem, chan) + [Contents(mem, b)]
  {
  }

  lemma VisibleSendJoined(s: State, c: nat)
    requires Inv(s) && Enabled(s, G.SendJoined(c))
    ensures G.Enabled(View(s), G.SendJoined(c)) && View(Apply(s, G.SendJoined(c))) == G.Apply(View(s), G.SendJoined(c))
  {
    var a := G.SendJoined(c);
    StepKeepsHeld(s, a);
    hide MemOk, HeldKept, RoomOk, ConnOk, Partial, View, Contents;
    var s' := Apply(s, a);
    ViewConn(s, s', c, s'.conns[c]);
    ViewSame(s, c);
    ChanViewPush(s.mem, s.conns[c].chan, s.conns[c].reader.b);
    assert ConnView(s'.mem, s'.conns[c]) == G.Apply(View(s), a).conns[c];
  }

  /** A connection and a room change and the memory does not. */
  lemma ViewBoth(s: State, s': State, i: nat, c: Conn, j: nat, r: RoomAgent)
    requires i < |s.conns| && j < |s.rooms| && s'.mem == s.mem
    requires s'.conns == s.conns[i := c] && s'.rooms == s.rooms[j := r]
    ensures View(s') == G.State(View(s).conns[i := ConnView(s.mem, c)], View(s).rooms[j := RoomView(s.mem, r)],
            s'.nextPid)
  {
    hide ConnView, RoomView;
    assert View(s').conns == View(s).conns[i := ConnView(s.mem, c)];
    assert View(s').rooms == View(s).rooms[j := RoomView(s.mem, r)];
  }

  lemma VisibleSend(s: State, r: nat)
    requires Inv(s) && Enabled(s, G.SendOrDrop(r))
    ensures G.Enabled(View(s), G.SendOrDrop(r)) && View(Apply(s, G.SendOrDrop(r))) == G.Apply(View(s), G.SendOrDrop(r))
  {
    hide MemOk, ConnOk, RoomOk, View, Contents;
    var a := G.SendOrDrop(r);
    var s' := Apply(s, a);
    var c := s.rooms[r].pc.todo[0];
    ViewBoth(s, s', c, s'.conns[c], r, s'.rooms[r]);
    ViewSame(s, c);
    ViewSameRoom(s, r);
    ChanViewPush(s.mem, s.conns[c].chan, s.rooms[r].pc.b);
    assert ConnView(s.mem, s'.conns[c]) == G.Apply(View(s), a).conns[c];
    assert RoomView(s.mem, s'.rooms[r]) == G.Apply(View(s), a).rooms[r];
  }

  lemma VisibleJoin(s: State, r: nat, c: nat)
    requires Inv(s) && Enabled(s, G.Join(r, c))
    ensures G.Enabled(View(s), G.Join(r, c)) && View(Apply(s, G.Join(r, c))) == G.Apply(View(s), G.Join(r, c))
  {
    hide MemOk, ConnOk, RoomOk, View, Contents, ChanView, Joined, G.JoinedFrame;
    var a := G.Join(r, c);
    var s' := Apply(s, a);
    ViewBoth(s, s', c, s'.conns[c], r, s'.rooms[r]);
    ViewSame(s, c);
    ViewSameRoom(s, r);
    assert ConnView(s.mem, s'.conns[c]) == G.Apply(View(s), a).conns[c];
    assert RoomView(s.mem, s'.rooms[r]) == G.Apply(View(s), a).rooms[r];
  }

  lemma VisibleRoom(s: State, a: G.Action)
    requires Inv(s) && Enabled(s, a) && (a.Move? || a.Leave? || a.Tick?)
    ensures G.Enabled(View(s), a) && View(Apply(s, a)) == G.Apply(View(s), a)
  {
    if a.Tick? { VisitsGame(s.rooms[a.r].game, a.dests); }
    StepKeepsHeld(s, a);
    hide MemOk, HeldKept, ConnOk, RoomOk, View, Contents, SnapshotFrame, Visits, Moved, Left, Ticked;
    var s', r := Apply(s, a), a.r;
    ViewRoom(s, s', r, s'.rooms[r]);
    ViewSameRoom(s, r);
    assert RoomView(s'.mem, s'.rooms[r]) == G.Apply(View(s), a).rooms[r];
  }

  lemma VisibleGrow(s: State, a: G.Action)
    requires Inv(s) && Enabled(s, a) && (a.Accept? || a.NewRoom?)
    ensures G.Enabled(View(s), a) && View(Apply(s, a)) == G.Apply(View(s), a)
  {
    hide MemOk, ConnOk, RoomOk, Contents;
    var s' := Apply(s, a);
    if a.Accept? {
      assert ConnView(s.mem, FRESH_CONN) == G.FRESH_CONN;
    }
    assert View(s').conns == G.Apply(View(s), a).conns;
    assert View(s').rooms == G.Apply(View(s), a).rooms;
  }

  /** Each step of the pooled server is the same step of the allocating server, or no step. */
  lemma StepRefines(s: State, a: G.Action)
    requires Inv(s) && Enabled(s, a)
    ensures G.Enabled(View(s), a) && View(Apply(s, a)) == G.Apply(View(s), a)
  {
    hide Inv, Enabled, Apply, View;
    match a {
      case Accept => VisibleGrow(s, a);
      case NewRoom(_) => VisibleGrow(s, a);
      case Join(r, c) => VisibleJoin(s, r, c);
      case Move(_, _, _, _, _) => VisibleRoom(s, a);
      case Leave(_, _) => VisibleRoom(s, a);
      case Tick(_, _, _) => VisibleRoom(s, a);
      case SendOrDrop(r) => VisibleSend(s, r);
      case SendJoined(c) => VisibleSendJoined(s, c);
      case WriteTake(_) => VisibleWriter(s, a);
      case WriteSome(_, _) => VisibleWriter(s, a);
      case WriteEnd(_, _) => VisibleWriter(s, a);
      case WriteQuit(_) => VisibleWriter(s, a);
      case ReadGet(_, _) => InternalReader(s, a);
      case ReadFill(_, _) => InternalReader(s, a);
      case ReadStore(_) => InternalReader(s, a);
      case WriteRelease(_) => InternalWriter(s, a);
      case WritePut(_) => InternalWriter(s, a);
      case Collect(b) => InternalCollect(s, b);
      case _ => InternalRoom(s, a);
    }
  }

  // ---- runs ----

  predicate GPossible(s: G.State, run: seq<G.Action>)
    decreases |run|
  {
    run == [] || (G.Enabled(s, run[0]) && GPossible(G.Apply(s, run[0]), run[1..]))
  }

  function GExec(s: G.State, run: seq<G.Action>): G.State
    requires GPossible(s, run)
    decreases |run|
  {
    if run == [] then s else GExec(G.Apply(s, run[0]), run[1..])
  }

  lemma {:induction false} RunRefines(s: State, run: seq<G.Action>)
    requires Inv(s) && Possible(s, run)
    ensures GPossible(View(s), run) && View(Exec(s, run)) == GExec(View(s), run)
    decreases |run|
  {
    hide Inv, Enabled, Apply, View, G.Enabled, G.Apply;
    if run != [] {
      StepRefines(s, run[0]);
      InvStep(s, run[0]);
      RunRefines(Apply(s, run[0]), run[1..]);
    }
  }

  /** Under the same interleaving of joins, moves, ticks, sends, drops and socket writes, both
      servers hand the same bytes to every socket and drop the same snapshots. */
  lemma SameBytesOnEverySocket(run: seq<G.Action>)
    requires Possible(INIT, run)
    ensures GPossible(G.INIT, run)
    ensures var p, g := Exec(INIT, run), GExec(G.INIT, run);
            |p.conns| == |g.conns|
            && forall i | 0 <= i < |p.conns| :: p.conns[i].out == g.conns[i].out && p.conns[i].drops == g.conns[i].drops
  {
    InvInit();
    RunRefines(INIT, run);
    assert View(INIT) == G.INIT;
  }
}
