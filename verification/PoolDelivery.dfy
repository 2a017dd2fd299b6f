/** The pooled server (servers/go-pool) delivers what the allocating one does: its broadcasts serve the
    same connections, and its sockets and players are the same. */
module PoolDelivery {
  import opened Wire
  import F = Framing
  import opened Room
  import opened Pool
  import opened PoolSafety
  import opened PoolRefinement
  import G = GoServer
  import D = Delivery

  /** A frame was offered to connection `c`: a buffer that holds it is queued if there is room for it, and
      else it is counted as a drop. */
  predicate Offered(s: State, t: State, c: nat, frame: Bytes)
    requires c < |s.conns| && c < |t.conns|
  {
    var x, y := s.conns[c], t.conns[c];
    if |x.chan| < 64 then
      && |y.chan| == |x.chan| + 1 && y.chan[..|x.chan|] == x.chan
      && Contents(t.mem, y.chan[|x.chan|]) == frame && y.drops == x.drops
    else y.chan == x.chan && y.drops == x.drops + 1
  }

  /** How many steps of room `r` offer `frame` to connection `c`. */
  function Offers(s: State, run: seq<G.Action>, r: nat, c: nat, frame: Bytes): nat
    requires Possible(s, run)
    decreases |run|
  {
    if run == [] then 0
    else
      var t := Apply(s, run[0]);
      (if run[0] == G.SendOrDrop(r) && c < |s.conns| && c < |t.conns| && Offered(s, t, c, frame) then 1 else 0)
      + Offers(t, run[1..], r, c, frame)
  }

  lemma SendAgrees(s: State, r: nat, c: nat, frame: Bytes)
    requires Inv(s) && Enabled(s, G.SendOrDrop(r)) && c < |s.conns|
    ensures var a := G.SendOrDrop(r);
            && c < |Apply(s, a).conns| && G.Enabled(View(s), a)
            && Offered(s, Apply(s, a), c, frame) ==
                 D.Offered(D.ConnAt(View(s), c), D.ConnAt(G.Apply(View(s), a), c), frame)
  {
    hide Inv, Contents, View, RoomView, G.Apply, G.Enabled;
    var a := G.SendOrDrop(r);
    VisibleSend(s, r);
    var t := Apply(s, a);
    ViewSame(s, c);
    ViewSame(t, c);
    ViewLen(s);
    ViewLen(t);
    var x, y := s.conns[c], t.conns[c];
    if y.chan != x.chan {
      var b := s.rooms[r].pc.b;
      assert y.chan == x.chan + [b];
      ChanViewPush(s.mem, x.chan, b);
      LastEqual(ChanView(s.mem, x.chan), Contents(s.mem, b), frame);
      assert y.chan[..|x.chan|] == x.chan;
    }
  }

  lemma LastEqual(q: seq<Bytes>, a: Bytes, b: Bytes)
    ensures q + [a] == q + [b] <==> a == b
  {
    assert (q + [a])[|q|] == a && (q + [b])[|q|] == b;
  }

  lemma ViewLen(s: State)
    ensures |View(s).conns| == |s.conns| && |View(s).rooms| == |s.rooms|
  {
    hide ConnView, RoomView;
  }

  lemma {:induction false} OffersAgree(s: State, run: seq<G.Action>, r: nat, c: nat, frame: Bytes)
    requires Inv(s) && Possible(s, run) && c < |s.conns|
    ensures GPossible(View(s), run) && Offers(s, run, r, c, frame) == D.Offers(View(s), run, r, c, frame)
    decreases |run|
  {
    hide Inv, Enabled, Apply, View, G.Enabled, G.Apply, Offered, D.Offered, D.ConnAt;
    if run != [] {
      StepRefines(s, run[0]);
      InvStep(s, run[0]);
      ConnsStay(s, run[0]);
      if run[0] == G.SendOrDrop(r) { SendAgrees(s, r, c, frame); }
      OffersAgree(Apply(s, run[0]), run[1..], r, c, frame);
    }
  }

  lemma ConnsStay(s: State, a: G.Action)
    requires Enabled(s, a)
    ensures |Apply(s, a).conns| >= |s.conns|
  {
  }

  lemma TickRoom(s: State, r: nat, order: seq<int>, dests: seq<int>)
    requires Enabled(s, G.Tick(r, order, dests))
    ensures r < |s.rooms| && forall i | 0 <= i < |order| :: order[i] in Ticked(s.rooms[r].game).players
  {
    D.TickedKeeps(s.rooms[r].game, order);
  }

  /** From one tick of a room to its next: by the time the room is idle again, each connection has been
      offered a buffer with the snapshot of that tick exactly once for each player that came by it. */
  lemma BroadcastServes(s: State, r: nat, order: seq<int>, dests: seq<int>, run: seq<G.Action>, c: nat)
    requires Inv(s) && Enabled(s, G.Tick(r, order, dests)) && Possible(Apply(s, G.Tick(r, order, dests)), run)
    requires c < |s.conns| && forall a | a in run :: !(a.Tick? && a.r == r)
    ensures forall i | 0 <= i < |order| :: order[i] in Ticked(s.rooms[r].game).players
    ensures var t := Apply(s, G.Tick(r, order, dests));
            var e, frame := Exec(t, run), SnapshotFrame(Ticked(s.rooms[r].game), order);
            && r < |e.rooms|
            && Offers(t, run, r, c, frame) <= D.Players(s.rooms[r].game.conns, c)
            && (e.rooms[r].pc == Idle ==> Offers(t, run, r, c, frame) == D.Players(s.rooms[r].game.conns, c))
  {
    hide Inv, View, Apply, Enabled, G.Enabled, G.Apply, SnapshotFrame, Ticked, D.Offers, Offers, Exec, Possible;
    var a := G.Tick(r, order, dests);
    var t := Apply(s, a);
    TickRoom(s, r, order, dests);
    StepRefines(s, a);
    InvStep(s, a);
    ConnsStay(s, a);
    ViewSameRoom(s, r);
    RunRefines(t, run);
    OffersAgree(t, run, r, c, SnapshotFrame(Ticked(s.rooms[r].game), order));
    D.BroadcastServes(View(s), r, order, dests, run, c);
    ViewLen(Exec(t, run));
    ViewSameRoom(Exec(t, run), r);
  }

  /** In every run of the pooled server, too, players are what their own commands and ticks make of them, and
      what a socket gets is the beginning of the whole frames that the rooms and the reader queued for
      it, in order. */
  lemma PlayersAndSockets(run: seq<G.Action>, r: nat, c: nat)
    requires Possible(INIT, run)
    ensures GPossible(G.INIT, run)
    ensures var s := Exec(INIT, run);
            && s.nextPid == D.JoinsIn(run) % 0x1_0000_0000 && |s.rooms| == D.RoomsIn(run)
            && (r < |s.rooms| ==> D.RoomLives(s.rooms[r].game, run, r))
            && (c < |s.conns| ==> s.conns[c].out <= F.Concat(D.Entering(G.INIT, run, c)))
  {
    InvInit();
    RunRefines(INIT, run);
    assert View(INIT) == G.INIT;
    hide Inv, View, Apply, Enabled, G.Enabled, G.Apply, Exec, Possible, GPossible, GExec, D.RoomLives, D.Entering;
    var s := Exec(INIT, run);
    D.PlayersAre(run, r);
    ViewLen(s);
    if r < |s.rooms| { ViewSameRoom(s, r); }
    if c < |s.conns| { ViewSame(s, c); }
    D.SocketFromStart(run, c);
  }
}
