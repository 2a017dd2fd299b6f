/** The event loop of an epoll worker (servers/go-epoll): for any events, any answers of the kernel
    and any choices of the runtime, the objects become what Events says. */
module ReactorRun {
  import opened Sequences
  import opened Reactor
  import E = Events
  import L = Lists
  import P = Peers
  import O = Outbound
  import I = Inbound
  import F = Framing

  /** The read sides of the connections are what `w` says. */
  ghost predicate BuffersMatch(cs: set<Conn>, bufs: map<Conn, E.Buffer>)
    reads cs`rbuf, cs`input
  {
    forall c | c in cs :: c in bufs && bufs[c] == E.Buffer(c.rbuf, c.input)
  }

  /** The rooms, in an arbitrary order. */
  method Order(w: Worker) returns (order: seq<Room>)
    requires w.Valid()
    ensures (forall r | r in order :: w.Ours(r)) && E.Enumerates(Keys(order), w.view)
  {
    hide L.Sane, Conn.Peer;
    order := [];
    var left := w.rooms.Values;
    w.AllOurs();
    while left != {}
      invariant left <= w.rooms.Values && Distinct(order)
      invariant forall r | r in order :: r in w.rooms.Values && r !in left
      invariant forall r | r in w.rooms.Values :: r in left || r in order
    {
      var r :| r in left;
      left := left - {r};
      order := order + [r];
    }
    Enumerated(w, order);
  }

  lemma Enumerated(w: Worker, order: seq<Room>)
    requires w.Matches() && Distinct(order)
    requires forall r | r in order :: w.Ours(r)
    requires forall r | r in w.rooms.Values :: r in order
    ensures E.Enumerates(Keys(order), w.view)
  {
    w.OursKnown(order);
    forall i, j | 0 <= i < j < |order| ensures Keys(order)[i] != Keys(order)[j] {
      assert order[i] in order && order[j] in order && order[i] != order[j];
    }
    forall k | k in w.view.rooms ensures k in Keys(order) {
      assert w.rooms[k] in w.rooms.Values;
      var i :| 0 <= i < |order| && order[i] == w.rooms[k];
      assert Keys(order)[i] == k;
    }
  }

  /** The worker, and who was accepted so far, are what `world` says. */
  ghost predicate Agrees(w: Worker, accepted: seq<Conn>, world: E.World<Conn>)
    reads w`view, w`conns, w`rooms, w.rooms.Values, w.view.peers.Keys
  {
    && w.Valid() && w.view == world.s && Distinct(accepted) && E.Ok(world, accepted) && world.n == |accepted|
    && BuffersMatch(w.view.peers.Keys, world.bufs)
  }

  lemma Facts(w: Worker, accepted: seq<Conn>, world: E.World<Conn>)
    requires Agrees(w, accepted, world)
    ensures w.Valid() && w.view == world.s && Distinct(accepted) && E.Ok(world, accepted) && world.n == |accepted|
    ensures world.bufs.Keys == world.joins.Keys == world.s.peers.Keys && BuffersMatch(w.view.peers.Keys, world.bufs)
  {
  }

  lemma ConnFacts(w: Worker, accepted: seq<Conn>, world: E.World<Conn>, i: nat)
    requires Agrees(w, accepted, world) && i < |accepted|
    ensures accepted[i] in w.view.peers && accepted[i].closed == w.view.peers[accepted[i]].o.closed
    ensures E.IsOpen(world, accepted, i) <==> !accepted[i].closed
    ensures accepted[i] in world.bufs && world.bufs[accepted[i]] == E.Buffer(accepted[i].rbuf, accepted[i].input)
  {
    hide L.Sane, Conn.Peer;
    w.TakeConn(accepted[i]);
    accepted[i].Placed();
  }

  lemma BuffersBut(c: Conn, cs: set<Conn>, bufs: map<Conn, E.Buffer>)
    requires BuffersMatch(cs - {c}, bufs)
    ensures BuffersMatch(cs, bufs[c := E.Buffer(c.rbuf, c.input)])
  {
  }

  lemma BuffersOthers(c: Conn, cs: set<Conn>, bufs: map<Conn, E.Buffer>)
    requires BuffersMatch(cs, bufs)
    ensures BuffersMatch(cs - {c}, bufs)
  {
  }

  method Readable(w: Worker, accepted: seq<Conn>, i: nat, pids: seq<int>, ghost world: E.World<Conn>)
    requires Agrees(w, accepted, world) && i < |accepted|
    modifies w, w.rooms.Values, w.view.peers.Keys
    ensures w.scratch == old(w.scratch) && w.view.peers.Keys == old(w.view).peers.Keys
    ensures Agrees(w, accepted, E.Step(world, E.Readable(i, pids), accepted, []))
    ensures forall r | r in w.rooms.Values :: r in old(w.rooms.Values) || fresh(r)
  {
    hide L.Sane, Worker.Matches, BuffersMatch, E.Ok, L.Received, L.Hung, L.Rejects, I.Drain, F.Feed, Conn.Peer;
    Facts(w, accepted, world);
    ConnFacts(w, accepted, world, i);
    var c := accepted[i];
    if c.closed { return; }
    BuffersOthers(c, w.view.peers.Keys, world.bufs);
    w.OnReadable(c, pids);
    BuffersBut(c, w.view.peers.Keys, world.bufs);
  }

  /** A writable socket, or a hangup. */
  method Signalled(w: Worker, accepted: seq<Conn>, e: E.Event, ghost world: E.World<Conn>)
    requires Agrees(w, accepted, world) && (e.Writable? || e.Hangup?) && e.conn < |accepted|
    modifies w`view, w`conns, w.rooms.Values`slots, w.rooms.Values`n
    modifies w.view.peers.Keys`midx, w.view.peers.Keys`room, w.view.peers.Keys`closed, w.view.peers.Keys`script
    modifies w.view.peers.Keys`sent, w.view.peers.Keys`wbuf, w.view.peers.Keys`wantOut
    ensures w.view.peers.Keys == old(w.view).peers.Keys
    ensures Agrees(w, accepted, E.Step(world, e, accepted, []))
  {
    hide L.Sane, Worker.Matches, BuffersMatch, E.Ok, E.Read, L.Hung, L.Writable, L.TickedAll, L.Accepted, Conn.Peer;
    Facts(w, accepted, world);
    ConnFacts(w, accepted, world, e.conn);
    var c := accepted[e.conn];
    if c.closed { return; }
    if e.Writable? { w.Flush(c); } else { w.CloseConn(c); }
  }

  method Ticking(w: Worker, accepted: seq<Conn>, ghost world: E.World<Conn>) returns (ghost order: seq<P.Place>)
    requires Agrees(w, accepted, world)
    modifies w`view, w`conns, w`scratch, w.scratch, w.rooms.Values
    modifies w.view.peers.Keys`midx, w.view.peers.Keys`room, w.view.peers.Keys`x, w.view.peers.Keys`y
    modifies w.view.peers.Keys`closed, w.view.peers.Keys`script, w.view.peers.Keys`sent, w.view.peers.Keys`wbuf
    modifies w.view.peers.Keys`wantOut, w.view.peers.Keys`admitted
    ensures w.view.peers.Keys == old(w.view).peers.Keys && (w.scratch == old(w.scratch) || fresh(w.scratch))
    ensures E.Enumerates(order, world.s) && Agrees(w, accepted, E.Step(world, E.Timer, accepted, order))
  {
    hide L.Sane, Worker.Matches, BuffersMatch, E.Ok, E.Enumerates, E.Read, L.TickedAll, L.Hung, L.Writable, Conn.Peer;
    Facts(w, accepted, world);
    var rooms := Order(w);
    order := Keys(rooms);
    w.OnTick(rooms);
  }

  method Accepting(w: Worker, accepted: seq<Conn>, e: E.Event, ghost world: E.World<Conn>) returns (now: seq<Conn>)
    requires Agrees(w, accepted, world) && e.Accepting?
    modifies w`view, w`conns
    ensures |now| == |accepted| + 1 && accepted <= now && fresh(now[|accepted|]) && Distinct(now) && E.Ok(world, now)
    ensures w.view.peers.Keys == old(w.view).peers.Keys + {now[|accepted|]}
    ensures Agrees(w, now, E.Step(world, e, now, []))
  {
    hide L.Sane, Worker.Matches, BuffersMatch, L.Accepted, Conn.Peer;
    Facts(w, accepted, world);
    var c := w.Accept(e.script, e.input);
    now := accepted + [c];
    E.AcceptedKeys(world.s, c, e.script);
    BuffersNew(c, world.s.peers.Keys, world.bufs);
  }

  lemma BuffersNew(c: Conn, cs: set<Conn>, bufs: map<Conn, E.Buffer>)
    requires BuffersMatch(cs, bufs) && c !in cs
    ensures BuffersMatch(cs + {c}, bufs[c := E.Buffer(c.rbuf, c.input)])
  {
  }

  /** One event, whatever it is; a closed connection has none. */
  method Handle(w: Worker, accepted: seq<Conn>, e: E.Event, ghost world: E.World<Conn>)
    returns (now: seq<Conn>, ghost order: seq<P.Place>)
    requires Agrees(w, accepted, world)
    modifies w, w.scratch, w.rooms.Values, w.view.peers.Keys
    ensures w.scratch == old(w.scratch) || fresh(w.scratch)
    ensures forall c | c in w.view.peers.Keys :: c in old(w.view).peers.Keys || fresh(c)
    ensures forall r | r in w.rooms.Values :: r in old(w.rooms.Values) || fresh(r)
    ensures accepted <= now && Distinct(now) && E.Ok(world, now)
    ensures (e.Accepting? ==> world.n < |now|) && (e.Timer? ==> E.Enumerates(order, world.s))
    ensures Agrees(w, now, E.Step(world, e, now, order))
  {
    hide Agrees, BuffersMatch, E.Ok, E.Step, E.Enumerates, Worker.Valid;
    Facts(w, accepted, world);
    now, order := accepted, [];
    match e {
      case Accepting(_, _) => now := Accepting(w, accepted, e, world);
      case Timer => order := Ticking(w, accepted, world);
      case Readable(i, pids) =>
        if i < |accepted| { Readable(w, accepted, i, pids, world); } else { NoSuch(world, e, accepted); }
      case _ =>
        if e.conn < |accepted| { Signalled(w, accepted, e, world); } else { NoSuch(world, e, accepted); }
    }
  }

  lemma NoSuch(world: E.World<Conn>, e: E.Event, accepted: seq<Conn>)
    requires !e.Accepting? && !e.Timer? && e.conn >= |accepted| && E.Ok(world, accepted) && Distinct(accepted)
    ensures E.Step(world, e, accepted, []) == world
  {
  }

  /** One event of a run. */
  method Next(w: Worker, accepted: seq<Conn>, es: seq<E.Event>, n: nat, ghost orders: seq<seq<P.Place>>)
    returns (now: seq<Conn>, ghost more: seq<seq<P.Place>>)
    requires n < |es| && Distinct(accepted) && E.Chosen(es[..n], accepted, orders)
    requires Agrees(w, accepted, E.Run(es[..n], accepted, orders))
    modifies w, w.scratch, w.rooms.Values, w.view.peers.Keys
    ensures w.scratch == old(w.scratch) || fresh(w.scratch)
    ensures forall c | c in w.view.peers.Keys :: c in old(w.view).peers.Keys || fresh(c)
    ensures forall r | r in w.rooms.Values :: r in old(w.rooms.Values) || fresh(r)
    ensures Distinct(now) && E.Chosen(es[..n + 1], now, more) && Agrees(w, now, E.Run(es[..n + 1], now, more))
  {
    hide Agrees, Distinct, E.Ok, E.Step, E.Enumerates, E.Chosen, E.Run;
    ghost var order;
    now, order := Handle(w, accepted, es[n], E.Run(es[..n], accepted, orders));
    E.MoreNames(es[..n], accepted, now, orders);
    E.RunMore(es[..n], es[n], now, orders, order);
    assert es[..n + 1] == es[..n] + [es[n]];
    more := orders + [order];
  }

  /** A run of the worker from its start. The objects become what the events, the kernel's answers and
      the runtime's choices make of them: every field of every connection, and every member list. */
  method Run(es: seq<E.Event>) returns (w: Worker, accepted: seq<Conn>, ghost orders: seq<seq<P.Place>>)
    ensures Distinct(accepted) && E.Chosen(es, accepted, orders)
    ensures Agrees(w, accepted, E.Run(es, accepted, orders))
  {
    w := new Worker();
    accepted, orders := [], [];
    FreshAgrees(w);
    hide Agrees, Distinct, E.Ok, E.Step, E.Enumerates, E.Chosen, E.Run;
    StartRun(accepted);
    for n := 0 to |es|
      invariant fresh(w) && fresh(w.scratch) && (forall c | c in w.view.peers.Keys :: fresh(c))
      invariant forall r | r in w.rooms.Values :: fresh(r)
      invariant Distinct(accepted) && E.Chosen(es[..n], accepted, orders)
      invariant Agrees(w, accepted, E.Run(es[..n], accepted, orders))
    {
      accepted, orders := Next(w, accepted, es, n, orders);
    }
    assert es[..|es|] == es;
  }

  lemma FreshAgrees(w: Worker)
    requires w.Valid() && w.view == L.State(map[], map[], map[])
    ensures Agrees(w, [], E.World(L.State(map[], map[], map[]), map[], map[], 0))
  {
  }

  lemma StartRun(names: seq<Conn>)
    requires names == []
    ensures Distinct(names) && E.Chosen([], names, [])
    ensures E.Run([], names, []) == E.World(L.State(map[], map[], map[]), map[], map[], 0)
  {
  }
}
