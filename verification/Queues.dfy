/** The outbound queues of an epoll worker (servers/go-epoll) over whole runs: what each socket has
    got and what is still queued for it are whole frames in the order in which they were admitted. */
module Queues {
  import opened Wire
  import opened Lists
  import opened Sequences
  import opened Events
  import P = Peers
  import O = Outbound
  import F = Framing
  import I = Inbound
  import J = SecondJoin

  predicate AllQueued<C>(s: State<C>)
  {
    forall c | c in s.peers :: O.Queued(s.peers[c].o)
  }

  lemma BecomeQueued<C>(s: State<C>, c: C, q: P.Peer)
    requires Sane(s) && c in s.peers && Follows(q, s.peers[c]) && AllQueued(s) && O.Queued(q.o)
    ensures AllQueued(Become(s, c, q))
  {
    hide O.Queued;
  }

  lemma OfferedQueued<C>(s: State<C>, c: C, frame: Bytes)
    requires Sane(s) && c in s.peers && AllQueued(s)
    ensures AllQueued(Offered(s, c, frame))
  {
    hide O.Queued, O.Enqueue, Become;
    OfferFollows(s.peers[c], frame);
    O.EnqueueQueued(s.peers[c].o, frame);
    BecomeQueued(s, c, P.Offer(s.peers[c], frame));
  }

  lemma HungQueued<C>(s: State<C>, c: C)
    requires Sane(s) && c in s.peers && AllQueued(s)
    ensures AllQueued(Hung(s, c))
  {
    BecomeQueued(s, c, P.Closed(s.peers[c]));
  }

  /** A writable event sends what the kernel takes until it stops, and no more. */
  lemma WritableSends<C>(s: State<C>, c: C, m: nat)
    requires Sane(s) && c in s.peers && !s.peers[c].o.closed && O.StopsAt(s.peers[c].o.script, m)
    ensures c in Lists.Writable(s, c).peers
    ensures O.SentUpTo(s.peers[c].o, Lists.Writable(s, c).peers[c].o, m)
  {
    hide O.Flush, O.SentUpTo;
    O.FlushSends(s.peers[c].o, m);
  }

  lemma WritableQueued<C>(s: State<C>, c: C)
    requires Sane(s) && c in s.peers && AllQueued(s)
    ensures AllQueued(Lists.Writable(s, c))
  {
    hide O.Queued, O.Flush, Become;
    if !s.peers[c].o.closed {
      O.FlushQueued(s.peers[c].o);
      J.FlushFollows(s.peers[c]);
      BecomeQueued(s, c, P.Flushed(s.peers[c]));
    }
  }

  lemma HandledQueued<C>(s: State<C>, c: C, payload: Bytes, pid: int)
    requires Sane(s) && c in s.peers && AllQueued(s)
    ensures AllQueued(Handled(s, c, payload, pid))
  {
    hide O.Queued, Offered, Frame, JoinedPayload, Become, Get32, Get16;
    if !s.peers[c].o.closed {
      if P.IsJoin(payload) {
        J.JoinIs(payload);
        var room := Get32(payload, 1);
        OfferedQueued(Appended(s, c, P.In(room), pid), c, Frame(JoinedPayload(pid, room)));
      } else {
        SaneConn(s, c);
        J.HandleFollows(s.peers[c], payload, pid);
        BecomeQueued(s, c, P.Handle(s.peers[c], payload, pid));
      }
    }
  }

  lemma {:induction false} DispatchedQueued<C>(s: State<C>, c: C, payloads: seq<Bytes>, pids: seq<int>)
    requires Sane(s) && c in s.peers && AllQueued(s)
    ensures AllQueued(Dispatched(s, c, payloads, pids))
  {
    hide Sane, AllQueued, Handled;
    if payloads != [] {
      var m := |payloads| - 1;
      DispatchedQueued(s, c, payloads[..m], pids);
      HandledQueued(Dispatched(s, c, payloads[..m], pids), c, payloads[m], PidAt(pids, JoinsIn(payloads[..m])));
    }
  }

  lemma {:induction false} WalkedQueued<C>(s: State<C>, k: P.Place, i: nat, n: nat, frame: Bytes)
    requires Sane(s) && k in s.rooms && n <= |s.rooms[k].slots| && AllQueued(s)
    ensures AllQueued(Walked(s, k, i, n, frame))
    decreases n - i
  {
    hide Sane, RoomSane, AllQueued, Offered, Walked;
    if i >= n {
      WalkedPast(s, k, i, n, frame);
    } else {
      WalkedStep(s, k, i, n, frame);
      OfferedQueued(s, s.rooms[k].slots[i], frame);
      WalkedQueued(Offered(s, s.rooms[k].slots[i], frame), k, i + 1, n, frame);
    }
  }

  lemma {:induction false} TickedQueued<C>(s: State<C>, order: seq<P.Place>)
    requires Sane(s) && (forall k | k in order :: k in s.rooms) && AllQueued(s)
    ensures AllQueued(TickedAll(s, order))
  {
    hide Sane, Lists.Moved, Walked, Frame, SnapshotPayload, O.Queued;
    if order != [] {
      var m := |order| - 1;
      TickedQueued(s, order[..m]);
      var t, k := TickedAll(s, order[..m]), order[m];
      if t.rooms[k].n > 0 {
        SaneRoom(t, k);
        J.MovedSame(WithTick(t, k, NextTick(t, k)), k, 0, t.rooms[k].n, []);
        WalkedQueued(Built(t, k).0, k, 0, t.rooms[k].n, Frame(SnapshotPayload(NextTick(t, k), Built(t, k).1)));
      }
    }
  }

  lemma ReadQueued<C>(w: World<C>, c: C, pids: seq<int>)
    requires Sane(w.s) && c in w.s.peers && c in w.bufs && c in w.joins && AllQueued(w.s)
    ensures AllQueued(Read(w, c, pids).s)
  {
    hide Sane, AllQueued, Dispatched, Hung, F.Feed, I.Drain, Rejects, JoinsIn;
    var i := Parsed(w, c, pids);
    HungQueued(w.s, c);
    DispatchedQueued(w.s, c, i.log, pids);
    HungQueued(Dispatched(w.s, c, i.log, pids), c);
  }

  lemma StepQueued<C>(w: World<C>, e: Event, names: seq<C>, order: seq<P.Place>)
    requires Ok(w, names) && (e.Accepting? ==> w.n < |names|) && (e.Timer? ==> Enumerates(order, w.s))
    requires Distinct(names) && AllQueued(w.s)
    ensures AllQueued(Step(w, e, names, order).s)
  {
    hide Sane, Ok, AllQueued, Read, Hung, Lists.Writable, TickedAll;
    OkMeans(w, names);
    match e
    case Accepting(script, _) => AcceptedQueued(w.s, names[w.n], script);
    case Readable(i, pids) => if IsOpen(w, names, i) { ReadQueued(w, names[i], pids); }
    case Writable(i) => if IsOpen(w, names, i) { WritableQueued(w.s, names[i]); }
    case Hangup(i) => if IsOpen(w, names, i) { HungQueued(w.s, names[i]); }
    case Timer => TickedQueued(w.s, order);
  }

  lemma AcceptedQueued<C>(s: State<C>, c: C, script: seq<O.WriteResult>)
    requires Sane(s) && c !in s.peers && AllQueued(s)
    ensures AllQueued(Accepted(s, c, script))
  {
    assert F.Concat([]) == [];
    assert O.Queued(O.FRESH.(script := script));
  }

  /** In every run, second JOINs included: each socket has got the beginning of the whole frames that its
      queue admitted, in that order, the rest of them is queued, and as long as the connection is open
      write interest is armed exactly while something is. */
  lemma {:induction false} RunQueued<C>(es: seq<Event>, names: seq<C>, orders: seq<seq<P.Place>>)
    requires Distinct(names) && Chosen(es, names, orders)
    ensures AllQueued(Run(es, names, orders).s)
    decreases |es|
  {
    hide Step, AllQueued, Enumerates, Ok;
    if es == [] {
      NoneQueued<C>();
    } else {
      var m := |es| - 1;
      RunQueued(es[..m], names, orders[..m]);
      StepQueued(Run(es[..m], names, orders[..m]), es[m], names, orders[m]);
    }
  }

  lemma NoneQueued<C>()
    ensures AllQueued<C>(State(map[], map[], map[]))
  {
  }
}
