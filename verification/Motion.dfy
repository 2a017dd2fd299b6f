/** Where the players of an epoll worker (servers/go-epoll) are after a whole run: the sum of their
    velocities over the timer events that found them in a room, wrapped once. */
module Motion {
  import opened Wire
  import opened Lists
  import opened Sequences
  import opened Events
  import opened N = InOrder
  import P = Peers
  import O = Outbound
  import I = Inbound
  import F = Framing
  import T = TickWalk
  import M = Streams
  import J = SecondJoin

  // ---- only the timer moves anyone ----

  predicate StillOne<C>(s: State<C>, t: State<C>, c: C)
    requires c in s.peers
  {
    c in t.peers && t.peers[c].x == s.peers[c].x && t.peers[c].y == s.peers[c].y
  }

  predicate Still<C>(s: State<C>, t: State<C>)
  {
    forall c | c in s.peers :: StillOne(s, t, c)
  }

  lemma StillOn<C>(s: State<C>, t: State<C>, u: State<C>)
    requires Still(s, t) && Still(t, u)
    ensures Still(s, u)
  {
    forall c | c in s.peers ensures StillOne(s, u, c) { assert StillOne(s, t, c) && StillOne(t, u, c); }
  }

  lemma OfferedStill<C>(s: State<C>, c: C, frame: Bytes)
    requires Sane(s) && c in s.peers
    ensures Still(s, Offered(s, c, frame))
  {
    hide O.Enqueue;
  }

  lemma AppendedStill<C>(s: State<C>, c: C, k: P.Place, pid: int)
    requires Sane(s) && c in s.peers && !s.peers[c].o.closed && k.In?
    ensures Still(s, Appended(s, c, k, pid))
  {
  }

  lemma HandledStill<C>(s: State<C>, c: C, payload: Bytes, pid: int)
    requires Sane(s) && c in s.peers
    ensures Still(s, Handled(s, c, payload, pid))
  {
    hide Sane, Still, Offered, Appended, Frame, JoinedPayload, Get32, Get16;
    if !s.peers[c].o.closed && P.IsJoin(payload) {
      var room := Get32(payload, 1);
      var t := Appended(s, c, P.In(room), pid);
      AppendedStill(s, c, P.In(room), pid);
      OfferedStill(t, c, Frame(JoinedPayload(pid, room)));
      StillOn(s, t, Handled(s, c, payload, pid));
    } else {
      OtherStill(s, c, payload, pid);
    }
  }

  lemma OtherStill<C>(s: State<C>, c: C, payload: Bytes, pid: int)
    requires Sane(s) && c in s.peers && (s.peers[c].o.closed || !P.IsJoin(payload))
    ensures Still(s, Handled(s, c, payload, pid))
  {
  }

  lemma {:induction false} DispatchedStill<C>(s: State<C>, c: C, payloads: seq<Bytes>, pids: seq<int>)
    requires Sane(s) && c in s.peers
    ensures Still(s, Dispatched(s, c, payloads, pids))
  {
    hide Sane, StillOne, Handled;
    if payloads == [] {
      assert Still(s, s) by { StillSelf(s); }
    } else {
      var m := |payloads| - 1;
      var t := Dispatched(s, c, payloads[..m], pids);
      DispatchedStill(s, c, payloads[..m], pids);
      HandledStill(t, c, payloads[m], PidAt(pids, JoinsIn(payloads[..m])));
      StillOn(s, t, Dispatched(s, c, payloads, pids));
    }
  }

  lemma StillSelf<C>(s: State<C>)
    ensures Still(s, s)
  {
  }

  lemma HungStill<C>(s: State<C>, c: C)
    requires Sane(s) && c in s.peers
    ensures Still(s, Hung(s, c))
  {
  }

  lemma WritableStill<C>(s: State<C>, c: C)
    requires Sane(s) && c in s.peers
    ensures Still(s, Lists.Writable(s, c))
  {
    hide O.Flush;
  }

  lemma ReadStill<C>(w: World<C>, c: C, pids: seq<int>)
    requires Sane(w.s) && c in w.s.peers && c in w.bufs && c in w.joins
    ensures Still(w.s, Read(w, c, pids).s)
    ensures forall d | d in w.joins :: d in Read(w, c, pids).joins && w.joins[d] <= Read(w, c, pids).joins[d]
  {
    hide Sane, StillOne, Dispatched, Hung, F.Feed, I.Drain, Rejects, JoinsIn;
    var i := Parsed(w, c, pids);
    var t := Dispatched(w.s, c, i.log, pids);
    HungStill(w.s, c);
    DispatchedStill(w.s, c, i.log, pids);
    HungStill(t, c);
    StillOn(w.s, t, Hung(t, c));
  }

  /** No event but a timer event moves anyone; a new connection is at the origin; and JOINs only add up. */
  lemma StepStill<C>(w: World<C>, e: Event, names: seq<C>, order: seq<P.Place>)
    requires Ok(w, names) && (e.Accepting? ==> w.n < |names|) && (e.Timer? ==> Enumerates(order, w.s))
    requires Distinct(names)
    ensures var r := Step(w, e, names, order);
            && (!e.Timer? ==> Still(w.s, r.s))
            && (e.Accepting? ==>
                  && names[w.n] in r.s.peers && r.s.peers[names[w.n]].x == 0 && r.s.peers[names[w.n]].y == 0
                  && r.s.peers[names[w.n]].place == P.Nowhere)
            && forall d | d in w.joins :: d in r.joins && w.joins[d] <= r.joins[d]
  {
    hide Sane, Ok, Read, Hung, Lists.Writable, TickedAll, Still;
    OkMeans(w, names);
    match e
    case Accepting(script, _) => AcceptedStill(w.s, names[w.n], script);
    case Readable(i, pids) => if IsOpen(w, names, i) { ReadStill(w, names[i], pids); } else { StillSelf(w.s); }
    case Writable(i) => if IsOpen(w, names, i) { WritableStill(w.s, names[i]); } else { StillSelf(w.s); }
    case Hangup(i) => if IsOpen(w, names, i) { HungStill(w.s, names[i]); } else { StillSelf(w.s); }
    case Timer =>
  }

  lemma AcceptedStill<C>(s: State<C>, c: C, script: seq<O.WriteResult>)
    requires Sane(s) && c !in s.peers
    ensures Still(s, Accepted(s, c, script))
  {
  }

  // ---- a timer event ----

  /** A timer event with all rooms in order moves everyone in a room by their velocity, and nobody else. */
  lemma TimerMoves<C>(s: State<C>, order: seq<P.Place>, c: C)
    requires Sane(s) && InOrder(s) && Enumerates(order, s) && c in s.peers
    ensures c in TickedAll(s, order).peers
    ensures var p, q := s.peers[c], TickedAll(s, order).peers[c];
            && q.x == (if p.place.In? then Wrap32(p.x + p.vx) else p.x)
            && q.y == (if p.place.In? then Wrap32(p.y + p.vy) else p.y)
            && q.pid == p.pid
  {
    hide Sane, InOrder, TickedAll, Enumerates, O.Enqueue, TickFrame;
    TimerOnce(s, order);
  }

  // ---- runs ----

  /** The way of connection `i`: at each timer event that finds it in a room, it goes on by the velocity
      that its stream has given by then. */
  function Way(es: seq<Event>, i: nat): (int, int)
  {
    if es == [] then (0, 0)
    else
      var m := |es| - 1;
      var was, said := Way(es[..m], i), SaidIn(M.StreamOf(es[..m], i).bytes);
      if es[m].Timer? && i < M.AcceptsIn(es[..m]) && said.place.In? then (was.0 + said.vx, was.1 + said.vy) else was
  }

  lemma NoWayYet(es: seq<Event>, i: nat)
    requires i >= M.AcceptsIn(es)
    ensures Way(es, i) == (0, 0)
  {
    hide SaidIn;
  }

  /** After any run in which nobody has joined twice, each open connection is where its way leads, wrapped to
      32 bits. */
  lemma {:induction false} PositionIs<C>(es: seq<Event>, names: seq<C>, orders: seq<seq<P.Place>>, i: nat)
    requires Distinct(names) && Chosen(es, names, orders) && i < M.AcceptsIn(es)
    requires forall c | c in Run(es, names, orders).joins :: Run(es, names, orders).joins[c] <= 1
    ensures var w := Run(es, names, orders);
            && i < |names| && names[i] in w.s.peers
            && var p := w.s.peers[names[i]];
               !p.o.closed ==> p.x == Wrap32(Way(es, i).0) && p.y == Wrap32(Way(es, i).1)
    decreases |es|
  {
    hide Sane, Ok, Enumerates, M.Spoken, Step, SaidIn, M.StreamOf;
    var m := |es| - 1;
    var w, e, order := Run(es[..m], names, orders[..m]), es[m], orders[m];
    M.OpenIsSpoken(es[..m], names, orders[..m], i);
    StepStill(w, e, names, order);
    assert Run(es, names, orders) == Step(w, e, names, order);
    forall c | c in w.joins ensures w.joins[c] <= 1 { assert w.joins[c] <= Run(es, names, orders).joins[c]; }
    if i < w.n {
      PositionIs(es[..m], names, orders[..m], i);
      StepPosition(es[..m], names, orders[..m], e, order, i);
    } else {
      NoWayYet(es[..m], i);
    }
  }

  lemma StepPosition<C>(es: seq<Event>, names: seq<C>, orders: seq<seq<P.Place>>, e: Event, order: seq<P.Place>, i: nat)
    requires Distinct(names) && Chosen(es, names, orders) && i < M.AcceptsIn(es) && i < |names|
    requires var w := Run(es, names, orders);
             && (forall c | c in w.joins :: w.joins[c] <= 1)
             && (e.Accepting? ==> w.n < |names|) && (e.Timer? ==> Enumerates(order, w.s))
             && names[i] in w.s.peers
             && var p := w.s.peers[names[i]];
                !p.o.closed ==> p.x == Wrap32(Way(es, i).0) && p.y == Wrap32(Way(es, i).1)
    ensures var r := Step(Run(es, names, orders), e, names, order).s;
            && names[i] in r.peers
            && (!r.peers[names[i]].o.closed ==>
                  && r.peers[names[i]].x == Wrap32(Way(es + [e], i).0)
                  && r.peers[names[i]].y == Wrap32(Way(es + [e], i).1))
  {
    hide Sane, Ok, Enumerates, InOrder, TickedAll, Read, Hung, Lists.Writable, Run, Chosen;
    hide F.Feed, M.HeardAll, M.StreamOf;
    var w, c := Run(es, names, orders), names[i];
    var said := SaidIn(M.StreamOf(es, i).bytes);
    OkMeans(w, names);
    M.OpenIsSpoken(es, names, orders, i);
    M.StepSpoken(w, e, names, order, i, M.StreamOf(es, i));
    assert (es + [e])[..|es|] == es;
    StepStill(w, e, names, order);
    if e.Timer? {
      RunInOrder(es, names, orders);
      TimerMoves(w.s, order, c);
      WrapSum(Way(es, i).0, said.vx);
      WrapSum(Way(es, i).1, said.vy);
    }
  }

  /** What the next tick of a room shows of a member, accepted connection `i`: its way one step on, and the
      sequence number of its last MOVE. */
  lemma NextEntry<C>(es: seq<Event>, names: seq<C>, orders: seq<seq<P.Place>>, k: P.Place, i: nat, j: nat)
    requires Distinct(names) && Chosen(es, names, orders) && i < M.AcceptsIn(es) && i < |names|
    requires forall c | c in Run(es, names, orders).joins :: Run(es, names, orders).joins[c] <= 1
    requires var s := Run(es, names, orders).s;
             k in s.rooms && j < s.rooms[k].n <= |s.rooms[k].slots| && s.rooms[k].slots[j] == names[i]
    ensures var s, said := Run(es, names, orders).s, SaidIn(M.StreamOf(es, i).bytes);
            && RoomOk(s, k) && names[i] in s.peers
            && TickFrame(s, k) ==
                 Frame(SnapshotPayload((s.rooms[k].tick + 1) % 0x1_0000_0000, Entries(s.peers, ListOf(s, k))))
            && Entries(s.peers, ListOf(s, k))[j] ==
                 Entry(s.peers[names[i]].pid,
                       Wrap32(Way(es, i).0 + said.vx), Wrap32(Way(es, i).1 + said.vy), said.lastSeq)
  {
    hide Sane, Ok, Run, Chosen, F.Feed, M.HeardAll, M.StreamOf, Frame, SnapshotPayload;
    RunInOrder(es, names, orders);
    M.OpenIsSpoken(es, names, orders, i);
    PositionIs(es, names, orders, i);
    var said := SaidIn(M.StreamOf(es, i).bytes);
    WrapSum(Way(es, i).0, said.vx);
    WrapSum(Way(es, i).1, said.vy);
  }

  // ---- tick numbers ----

  lemma OfferedTicks<C>(s: State<C>, c: C, frame: Bytes, j: P.Place)
    requires Sane(s) && c in s.peers && j in s.rooms
    ensures Offered(s, c, frame).rooms[j].tick == s.rooms[j].tick
  {
    SaneConn(s, c);
    hide Sane, P.Offer;
  }

  lemma {:induction false} WalkedTicks<C>(s: State<C>, k: P.Place, i: nat, n: nat, frame: Bytes, j: P.Place)
    requires Sane(s) && k in s.rooms && n <= |s.rooms[k].slots| && j in s.rooms
    ensures Walked(s, k, i, n, frame).rooms[j].tick == s.rooms[j].tick
    decreases n - i
  {
    hide Sane, RoomSane, Walked, Offered;
    if i >= n {
      WalkedPast(s, k, i, n, frame);
    } else {
      WalkedStep(s, k, i, n, frame);
      OfferedTicks(s, s.rooms[k].slots[i], frame, j);
      WalkedTicks(Offered(s, s.rooms[k].slots[i], frame), k, i + 1, n, frame, j);
    }
  }

  /** In any state of the lists, a tick of a room that has members counts one on, modulo 2^32, and no other
      room's number changes. */
  lemma TickCounts<C>(s: State<C>, k: P.Place, j: P.Place)
    requires Sane(s) && k in s.rooms && j in s.rooms
    ensures Ticked(s, k).rooms[j].tick ==
              if j == k && s.rooms[k].n > 0 then (s.rooms[k].tick + 1) % 0x1_0000_0000 else s.rooms[j].tick
  {
    hide Sane, Walked, Moved, Frame, SnapshotPayload;
    if s.rooms[k].n > 0 {
      SaneRoom(s, k);
      WalkedTicks(Built(s, k).0, k, 0, s.rooms[k].n, T.FrameOf(s, k), j);
    }
  }

  lemma {:induction false} TimerCounts<C>(s: State<C>, order: seq<P.Place>, i: nat, k: P.Place)
    requires Sane(s) && InOrder(s) && Distinct(order) && (forall j | j in order :: j in s.rooms) && i <= |order|
    requires k in s.rooms
    ensures TickedAll(s, order[..i]).rooms[k].tick ==
              if k in order[..i] && s.rooms[k].n > 0 then (s.rooms[k].tick + 1) % 0x1_0000_0000 else s.rooms[k].tick
  {
    hide Sane, InOrder, Ticked, TickedAll, Timed;
    if i == 0 {
      TickedNone(s);
    } else {
      TimerCounts(s, order, i - 1, k);
      TimerSoFar(s, order, i - 1);
      TickedMore(s, order, i - 1);
      TickCounts(TickedAll(s, order[..i - 1]), order[i - 1], k);
      assert order[..i] == order[..i - 1] + [order[i - 1]];
      assert order[i - 1] !in order[..i - 1];
    }
  }

  /** Old rooms keep their tick number, and new ones start at 0. */
  predicate TicksStay<C>(s: State<C>, t: State<C>)
  {
    && (forall k | k in s.rooms :: k in t.rooms && t.rooms[k].tick == s.rooms[k].tick)
    && forall k | k in t.rooms && k !in s.rooms :: t.rooms[k].tick == 0
  }

  lemma BecomeTicks<C>(s: State<C>, c: C, q: P.Peer)
    requires Sane(s) && c in s.peers && Follows(q, s.peers[c])
    ensures TicksStay(s, Become(s, c, q))
  {
    SaneConn(s, c);
    hide Sane;
  }

  lemma HandledTicks<C>(s: State<C>, c: C, payload: Bytes, pid: int)
    requires Sane(s) && c in s.peers
    ensures TicksStay(s, Handled(s, c, payload, pid))
  {
    hide Sane, Become, P.Offer, Frame, JoinedPayload, Get32, Get16, Appended;
    if !s.peers[c].o.closed {
      if P.IsJoin(payload) {
        J.JoinIs(payload);
        var room := Get32(payload, 1);
        var t, b := Appended(s, c, P.In(room), pid), Frame(JoinedPayload(pid, room));
        AppendedTicks(s, c, P.In(room), pid);
        OfferFollows(t.peers[c], b);
        BecomeTicks(t, c, P.Offer(t.peers[c], b));
      } else {
        SaneConn(s, c);
        J.HandleFollows(s.peers[c], payload, pid);
        BecomeTicks(s, c, P.Handle(s.peers[c], payload, pid));
      }
    }
  }

  lemma AppendedTicks<C>(s: State<C>, c: C, k: P.Place, pid: int)
    requires Sane(s) && c in s.peers && !s.peers[c].o.closed && k.In?
    ensures TicksStay(s, Appended(s, c, k, pid)) && c in Appended(s, c, k, pid).peers
    ensures !Appended(s, c, k, pid).peers[c].o.closed
  {
  }

  lemma {:induction false} DispatchedTicks<C>(s: State<C>, c: C, payloads: seq<Bytes>, pids: seq<int>)
    requires Sane(s) && c in s.peers
    ensures TicksStay(s, Dispatched(s, c, payloads, pids))
  {
    hide Sane, Handled;
    if payloads != [] {
      var m := |payloads| - 1;
      DispatchedTicks(s, c, payloads[..m], pids);
      HandledTicks(Dispatched(s, c, payloads[..m], pids), c, payloads[m], PidAt(pids, JoinsIn(payloads[..m])));
    }
  }

  lemma StepTicks<C>(w: World<C>, e: Event, names: seq<C>, order: seq<P.Place>)
    requires Ok(w, names) && (e.Accepting? ==> w.n < |names|) && !e.Timer? && Distinct(names)
    ensures TicksStay(w.s, Step(w, e, names, order).s)
  {
    hide Sane, Ok, Become, Dispatched, F.Feed, I.Drain, Rejects, JoinsIn, O.Flush;
    OkMeans(w, names);
    match e
    case Accepting(_, _) =>
    case Readable(i, pids) =>
      if IsOpen(w, names, i) {
        var c, log := names[i], Parsed(w, names[i], pids).log;
        DispatchedTicks(w.s, c, log, pids);
        var t := Dispatched(w.s, c, log, pids);
        BecomeTicks(t, c, P.Closed(t.peers[c]));
        BecomeTicks(w.s, c, P.Closed(w.s.peers[c]));
      }
    case Writable(i) =>
      if IsOpen(w, names, i) {
        J.FlushFollows(w.s.peers[names[i]]);
        BecomeTicks(w.s, names[i], P.Flushed(w.s.peers[names[i]]));
      }
    case Hangup(i) => if IsOpen(w, names, i) { BecomeTicks(w.s, names[i], P.Closed(w.s.peers[names[i]])); }
  }

  /** How many timer events have found members in a room. */
  function Beats<C(==)>(es: seq<Event>, names: seq<C>, orders: seq<seq<P.Place>>, k: P.Place): nat
    requires Distinct(names) && Chosen(es, names, orders)
    decreases |es|
  {
    if es == [] then 0
    else
      var m := |es| - 1;
      var s := Run(es[..m], names, orders[..m]).s;
      Beats(es[..m], names, orders[..m], k) + if es[m].Timer? && k in s.rooms && s.rooms[k].n > 0 then 1 else 0
  }

  /** After any run in which nobody has joined twice, the tick number of a room is how many timer events have
      found members in it, modulo 2^32. */
  lemma {:induction false} TickNumberIs<C>(es: seq<Event>, names: seq<C>, orders: seq<seq<P.Place>>, k: P.Place)
    requires Distinct(names) && Chosen(es, names, orders)
    requires forall c | c in Run(es, names, orders).joins :: Run(es, names, orders).joins[c] <= 1
    ensures var s := Run(es, names, orders).s;
            if k in s.rooms then s.rooms[k].tick == Beats(es, names, orders, k) % 0x1_0000_0000
            else Beats(es, names, orders, k) == 0
    decreases |es|
  {
    hide Sane, Ok, Step;
    if es != [] {
      var m := |es| - 1;
      var w, e, order := Run(es[..m], names, orders[..m]), es[m], orders[m];
      StepStill(w, e, names, order);
      assert Run(es, names, orders) == Step(w, e, names, order);
      forall c | c in w.joins ensures w.joins[c] <= 1 { assert w.joins[c] <= Run(es, names, orders).joins[c]; }
      TickNumberIs(es[..m], names, orders[..m], k);
      RunInOrder(es[..m], names, orders[..m]);
      StepBeats(w, e, names, order, k);
    }
  }

  lemma StepBeats<C>(w: World<C>, e: Event, names: seq<C>, order: seq<P.Place>, k: P.Place)
    requires Ok(w, names) && (e.Accepting? ==> w.n < |names|) && (e.Timer? ==> Enumerates(order, w.s))
    requires Distinct(names) && InOrder(w.s)
    ensures var s, t := w.s, Step(w, e, names, order).s;
            if k in s.rooms then
              k in t.rooms && t.rooms[k].tick ==
                if e.Timer? && s.rooms[k].n > 0 then (s.rooms[k].tick + 1) % 0x1_0000_0000 else s.rooms[k].tick
            else k in t.rooms ==> t.rooms[k].tick == 0
  {
    hide Sane, Ok, InOrder, TickedAll, Read, Lists.Writable, Hung, Accepted;
    OkMeans(w, names);
    if e.Timer? {
      if k in w.s.rooms { TimerCounts(w.s, order, |order|, k); }
      assert order[..|order|] == order;
    } else {
      StepTicks(w, e, names, order);
    }
  }
}
