/** Which closed connections the ticks of the epoll reactor (servers/go-epoll) still write to. */
module ClosedWrites {
  import opened Wire
  import opened Lists
  import opened Sequences
  import opened Events
  import opened TickWalk
  import P = Peers
  import O = Outbound
  import I = Inbound
  import F = Framing
  import J = SecondJoin

  /** The tick of room `k` writes to `c`. */
  predicate TickWrites<C(==)>(s: State<C>, k: P.Place, c: C)
    requires Sane(s) && k in s.rooms
  {
    s.rooms[k].n > 0 && WrittenTo(Built(s, k).0, k, 0, s.rooms[k].n, FrameOf(s, k), c)
  }

  /** In every state, a tick writes to exactly the listed connections that have nothing queued. */
  lemma TickWritesIff<C>(s: State<C>, k: P.Place, c: C)
    requires Sane(s) && k in s.rooms && c in s.peers
    ensures TickWrites(s, k, c) <==>
              s.peers[c].o.wbuf == [] && exists i :: J.Holds(s, J.Slot(k, i), c)
  {
    hide Sane, Moved, WrittenTo, Frame, SnapshotPayload;
    SaneRoom(s, k);
    var n := s.rooms[k].n;
    if n > 0 {
      var u := Built(s, k).0;
      J.MovedSame(WithTick(s, k, NextTick(s, k)), k, 0, n, []);
      WrittenIff(u, k, 0, n, FrameOf(s, k), c);
      if c in s.rooms[k].slots[..n] {
        var i :| 0 <= i < n && s.rooms[k].slots[i] == c;
        assert J.Holds(s, J.Slot(k, i), c);
      }
    }
  }

  /** After any run, the next tick of some room writes to a connection that is closed exactly when that
      connection had joined at least twice and nothing is queued for it. */
  lemma ClosedIsWritten<C>(es: seq<Event>, names: seq<C>, orders: seq<seq<P.Place>>, c: C)
    requires Distinct(names) && Chosen(es, names, orders)
    requires var s := Run(es, names, orders).s; c in s.peers && s.peers[c].o.closed
    ensures var w := Run(es, names, orders);
            && c in w.joins && Sane(w.s)
            && ((exists k :: k in w.s.rooms && TickWrites(w.s, k, c)) <==>
                  w.joins[c] >= 2 && w.s.peers[c].o.wbuf == [])
  {
    hide Run, Chosen, TickWrites, J.Holds;
    J.ClosedIsListed(es, names, orders, c);
    var w := Run(es, names, orders);
    forall k | k in w.s.rooms
      ensures TickWrites(w.s, k, c) <==> w.s.peers[c].o.wbuf == [] && exists i :: J.Holds(w.s, J.Slot(k, i), c)
    {
      TickWritesIff(w.s, k, c);
    }
    if J.Somewhere(w.s, c) && w.s.peers[c].o.wbuf == [] {
      var p :| J.Holds(w.s, p, c);
      HeldRoom(w.s, p, c);
      assert TickWrites(w.s, p.place, c);
    }
  }

  lemma HeldRoom<C>(s: State<C>, p: J.Slot, c: C)
    requires J.Holds(s, p, c)
    ensures p.place in s.rooms && p == J.Slot(p.place, p.index)
  {
  }

  /** What it means for the kernel: those written to are asked for an answer, and to all others nothing
      goes, whatever is queued for them. */
  lemma TickAsks<C>(s: State<C>, k: P.Place, c: C)
    requires Sane(s) && k in s.rooms && c in s.peers
    ensures c in Ticked(s, k).peers
    ensures var o, later := s.peers[c].o, Ticked(s, k).peers[c].o;
            if TickWrites(s, k, c) then o.script == [] || |later.script| < |o.script|
            else later.script == o.script && later.sent == o.sent && (o.wbuf != [] ==> later.wbuf != [])
  {
    hide Sane, Moved, Walked, WrittenTo, Frame, SnapshotPayload;
    SaneRoom(s, k);
    var n := s.rooms[k].n;
    if n > 0 {
      J.MovedSame(WithTick(s, k, NextTick(s, k)), k, 0, n, []);
      WrittenAsks(Built(s, k).0, k, n, FrameOf(s, k), c);
    }
  }

  // ---- an example ----

  /** A connection reads one JOIN. */
  lemma ReadsJoin<C>(w: World<C>, c: C, room: nat, pids: seq<int>, later: seq<I.ReadResult>)
    requires Sane(w.s) && c in w.s.peers && !w.s.peers[c].o.closed && c in w.bufs && c in w.joins && room < TWO32
    requires w.bufs[c] == Buffer([], [I.Data(Frame(JoinPayload(room)))] + later)
    requires !Handled(w.s, c, JoinPayload(room), PidAt(pids, 0)).peers[c].o.closed
    ensures Read(w, c, pids) ==
              World(Handled(w.s, c, JoinPayload(room), PidAt(pids, 0)), w.bufs[c := Buffer([], later)],
                    w.joins[c := w.joins[c] + 1], w.n)
  {
    hide Sane, Handled, JoinPayload, Be32, Get32;
    var payload, script := JoinPayload(room), [I.Data(Frame(JoinPayload(room)))] + later;
    var kills := Rejects(w.s, c, pids);
    assert script[1..] == later && [] + Frame(payload) == Frame(payload) + [] == Frame(payload);
    assert I.Drain(script) == I.Drained(Frame(payload), false, later);
    assert [] + [payload] == [payload];
    JoinKind(room);
    DispatchedNone(w.s, c, pids);
    DispatchedMore(w.s, c, [], payload, pids);
    J.RejectsMeans(w.s, c, [payload], pids);
    F.FrameHead(payload, []);
    assert F.Feed([], Frame(payload), kills) == F.Inbox([payload], false, []);
  }

  /** Its acknowledgement is taken whole. */
  lemma JoinSends<C>(s: State<C>, c: C, room: nat, pid: int, later: seq<O.WriteResult>)
    requires Sane(s) && c in s.peers && !s.peers[c].o.closed && room < TWO32
    requires s.peers[c].o.wbuf == [] && s.peers[c].o.script == [O.Accept(13)] + later
    ensures var t := Handled(s, c, JoinPayload(room), pid);
            c in t.peers && !t.peers[c].o.closed && t.peers[c].o.wbuf == [] && t.peers[c].o.script == later
  {
    hide Sane, Appended, JoinedPayload, JoinPayload, Get32, Be32;
    var payload := JoinPayload(room);
    assert P.IsJoin(payload) by { JoinKind(room); }
    assert ([O.Accept(13)] + later)[1..] == later;
    var o, b := s.peers[c].o, Frame(JoinedPayload(pid, Get32(payload, 1)));
    assert |b| == 13;
    SentWhole(o, b, later);
    AppendedOut(s, c, P.In(Get32(payload, 1)), pid);
  }

  lemma JoinKind(room: int)
    ensures P.IsJoin(JoinPayload(room))
  {
  }

  lemma SentWhole(o: O.Out, b: Bytes, later: seq<O.WriteResult>)
    requires o.wbuf == [] && |b| == 13 && o.script == [O.Accept(13)] + later && !o.closed
    ensures O.Enqueue(o, b).wbuf == [] && O.Enqueue(o, b).script == later && !O.Enqueue(o, b).closed
  {
    assert o.script[1..] == later;
  }

  lemma AppendedOut<C>(s: State<C>, c: C, k: P.Place, pid: int)
    requires Sane(s) && c in s.peers && !s.peers[c].o.closed && k.In?
    ensures Appended(s, c, k, pid).peers[c].o == s.peers[c].o
  {
  }

  const TWICE: seq<Event> := [
    Accepting([O.Accept(13), O.Accept(13)], [I.Data(Frame(JoinPayload(7))), I.Data(Frame(JoinPayload(8)))]),
    Readable(0, [1]), Readable(0, [2]), Hangup(0)]

  /** No timer event, no order of rooms. */
  function NoOrders(n: nat): seq<seq<P.Place>> { if n == 0 then [] else NoOrders(n - 1) + [[]] }

  /** One connection joins room 7, then room 8, and hangs up. */
  lemma TwiceThenGone<C>(c: C)
    ensures Chosen(TWICE, [c], NoOrders(4))
    ensures var w := Run(TWICE, [c], NoOrders(4));
            && c in w.s.peers && w.s.peers[c].o.closed && w.s.peers[c].o.wbuf == []
            && c in w.joins && w.joins[c] == 2 && J.Somewhere(w.s, c)
            && exists k :: k in w.s.rooms && TickWrites(w.s, k, c)
  {
    hide Sane, Handled, Step, Read, J.Somewhere, TickWrites, Run, Chosen;
    var w := Joined(c);
    RunMore(TWICE[..3], TWICE[3], [c], NoOrders(3), []);
    assert TWICE[..3] + [TWICE[3]] == TWICE;
    HangsUp(w, c);
    ClosedIsWritten(TWICE, [c], NoOrders(4), c);
    J.ClosedIsListed(TWICE, [c], NoOrders(4), c);
  }

  lemma HangsUp<C>(w: World<C>, c: C)
    requires Ok(w, [c]) && c in w.s.peers && !w.s.peers[c].o.closed
    ensures var t := Step(w, Hangup(0), [c], []);
            && c in t.s.peers && t.s.peers[c].o == w.s.peers[c].o.(closed := true) && t.joins == w.joins
  {
    hide Sane;
    OkMeans(w, [c]);
    hide Ok;
  }

  /** The run before the hangup. */
  lemma Joined<C>(c: C) returns (w: World<C>)
    ensures Chosen(TWICE[..3], [c], NoOrders(3)) && w == Run(TWICE[..3], [c], NoOrders(3))
    ensures c in w.s.peers && !w.s.peers[c].o.closed && w.s.peers[c].o.wbuf == [] && c in w.joins && w.joins[c] == 2
  {
    hide Sane, Handled, Step, Read, Run, Chosen, Accepted;
    w := Newcomer(c);
    RunMore(TWICE[..1], TWICE[1], [c], NoOrders(1), []);
    assert TWICE[..1] + [TWICE[1]] == TWICE[..2];
    w := Joins(w, c, 7, [1], [O.Accept(13)], [I.Data(Frame(JoinPayload(8)))]);
    RunMore(TWICE[..2], TWICE[2], [c], NoOrders(2), []);
    assert TWICE[..2] + [TWICE[2]] == TWICE[..3];
    w := Joins(w, c, 8, [2], [], []);
  }

  lemma Joins<C>(w: World<C>, c: C, room: nat, pids: seq<int>, later: seq<O.WriteResult>, input: seq<I.ReadResult>)
    returns (t: World<C>)
    requires Ok(w, [c]) && c in w.s.peers && !w.s.peers[c].o.closed && room < TWO32
    requires w.s.peers[c].o.wbuf == [] && w.s.peers[c].o.script == [O.Accept(13)] + later
    requires w.bufs[c] == Buffer([], [I.Data(Frame(JoinPayload(room)))] + input)
    ensures t == Step(w, Readable(0, pids), [c], [])
    ensures c in t.s.peers && !t.s.peers[c].o.closed && t.s.peers[c].o.wbuf == [] && t.s.peers[c].o.script == later
    ensures Ok(t, [c]) && t.bufs[c] == Buffer([], input) && t.joins[c] == w.joins[c] + 1
  {
    hide Sane, Handled, Read;
    JoinSends(w.s, c, room, PidAt(pids, 0), later);
    ReadsJoin(w, c, room, pids, input);
    t := Step(w, Readable(0, pids), [c], []);
  }

  lemma Newcomer<C>(c: C) returns (w: World<C>)
    ensures Chosen(TWICE[..1], [c], NoOrders(1)) && w == Run(TWICE[..1], [c], NoOrders(1))
    ensures Ok(w, [c]) && c in w.s.peers && w.s.peers[c].o == O.FRESH.(script := [O.Accept(13), O.Accept(13)])
    ensures w.bufs[c] == Buffer([], TWICE[0].input) && w.joins[c] == 0
  {
    assert Chosen([], [c], NoOrders(0));
    RunMore([], TWICE[0], [c], NoOrders(0), []);
    assert [] + [TWICE[0]] == TWICE[..1];
    w := Run(TWICE[..1], [c], NoOrders(1));
  }
}
