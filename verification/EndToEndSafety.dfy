/** What every client of the reactor can rely on, in every run. */
module EndToEndSafety {
  import opened Wire
  import opened Framing
  import opened EndToEnd
  import opened Peers
  import opened Sequences
  import SendTimes
  import O = Outbound

  // ---- the actions of one connection ----

  lemma SendsMore(room: int, n: nat)
    ensures Sends(room, n) + [MovePayload(n + 1, 1, 0)] == Sends(room, n + 1)
  {
  }

  lemma MoveKeeps(l: Link, now: int, tick: int, nextPid: int)
    requires LinkOk(l, tick, nextPid) && |l.cl.moves| + 1 < TWO32
    ensures LinkOk(Moved(l, now), tick, nextPid)
  {
    hide O.Queued, History, Sends, MovePayload, SendTimes.SlotTime;
    SendsMore(l.cl.room, |l.cl.moves|);
    forall j | 0 <= j < SendTimes.RING
      ensures Moved(l, now).cl.slots[j] == SendTimes.SlotTime(Moved(l, now).cl.moves, j)
    {
      SendTimes.SlotTimeStep(l.cl.moves, now, j);
    }
  }

  lemma JoinHandled(l: Link, tick: int, nextPid: int)
    requires LinkOk(l, tick, nextPid) && !l.co.p.o.closed && l.co.handled == 0 && 0 <= nextPid && tick >= 0
    ensures LinkOk(Dispatched(l, nextPid + 1), tick, nextPid + 1)
    ensures Dispatched(l, nextPid + 1).co.p.pid == nextPid + 1 && IsJoin(l.cl.out[0])
  {
    hide O.Queued, O.Enqueue, Sends, JoinedPayload, Get32, Be32, Frame, SendTimes.SlotTime;
    var room, pid := l.cl.room, nextPid + 1;
    assert l.cl.out[0] == JoinPayload(room) by { FirstSend(room, |l.cl.moves|); }
    MessageFields(room, 0, 0, 0);
    OfferOk(l, l.co.p.(pid := pid, place := In(room)), JoinedPayload(pid, room));
  }

  lemma FirstSend(room: int, n: nat)
    ensures Sends(room, n)[0] == JoinPayload(room)
  {
  }

  lemma LaterSend(room: int, n: nat, k: nat)
    requires 1 <= k <= n
    ensures Sends(room, n)[k] == MovePayload(k, 1, 0)
  {
  }

  lemma MoveHandled(l: Link, tick: int, nextPid: int)
    requires LinkOk(l, tick, nextPid) && !l.co.p.o.closed && 1 <= l.co.handled < |l.cl.out|
    ensures LinkOk(Dispatched(l, nextPid + 1), tick, nextPid)
    ensures Dispatched(l, nextPid + 1).co.p.pid == l.co.p.pid
  {
    hide O.Queued, Sends, History, Get32, Get16, Be32, Be16;
    LaterSend(l.cl.room, |l.cl.moves|, l.co.handled);
    MessageFields(0, l.co.handled, 1, 0);
    HistoryLater(l.co.acks, l.co.p.pid, l.cl.room, tick, l.co.p.lastSeq, tick, l.co.p.lastSeq + 1);
  }

  lemma FlushKeeps(l: Link, tick: int, nextPid: int)
    requires LinkOk(l, tick, nextPid) && !l.co.p.o.closed
    ensures LinkOk(Drained(l), tick, nextPid)
  {
    hide O.Queued, O.Flush, Sends, History;
    O.FlushQueued(l.co.p.o);
    FlushSent(l.co.p.o);
  }

  lemma {:induction false} FlushSent(o: O.Out)
    ensures |o.sent| <= |O.Flush(o).sent|
    decreases |o.script|, |o.wbuf|
  {
    if o.wbuf != [] {
      var w := O.Answer(o.script);
      var o' := o.(script := O.Later(o.script));
      var k := O.Taken(w, |o.wbuf|);
      if w.Intr? {
        FlushSent(o');
      } else if k > 0 {
        FlushSent(o'.(sent := o.sent + o.wbuf[..k], wbuf := o.wbuf[k..]));
      }
    }
  }

  lemma CloseKeeps(l: Link, tick: int, nextPid: int)
    requires LinkOk(l, tick, nextPid)
    ensures LinkOk(Hung(l), tick, nextPid)
  {
    hide Sends, History, Concat;
  }

  lemma ReadKeeps(l: Link, n: nat, tick: int, nextPid: int)
    requires LinkOk(l, tick, nextPid) && l.cl.read + n <= |l.co.p.o.sent|
    ensures LinkOk(ReadMore(l, n), tick, nextPid)
  {
    hide O.Queued, Sends, History;
  }

  // ---- a tick ----

  /** In a snapshot with distinct players, a player finds its own entry. */
  lemma {:induction false} OwnFound(es: seq<Entry>, k: nat, me: int)
    requires k < |es| && es[k].pid == me
    requires forall i, j | 0 <= i < j < |es| :: es[i].pid != es[j].pid
    ensures OwnSeq(es, me) == es[k].lastSeq
  {
    if k > 0 {
      assert es[0].pid != es[k].pid;
      OwnFound(es[1..], k - 1, me);
    }
  }

  /** What a client decodes from a snapshot: the tick, and its own last sequence number. */
  lemma SnapshotSays(t: int, es: seq<Entry>, k: nat)
    requires 0 <= t < TWO32 && k < |es| <= 65535
    requires forall i | 0 <= i < |es| :: 0 <= es[i].pid < TWO32 && 0 <= es[i].lastSeq < TWO32
    requires forall i, j | 0 <= i < j < |es| :: es[i].pid != es[j].pid
    ensures var p := SnapshotPayload(t, es);
            IsSnapshot(p) && Sendable(p) && Time(p) == t && Own(p, es[k].pid) == es[k].lastSeq
  {
    hide DecodeSnapshot, OwnSeq, Be32;
    SnapshotRoundTrip(t, es);
    SnapshotAccepted(t, es);
    assert es[..|es|] == es;
    OwnFound(SeenAll(es), k, es[k].pid);
  }

  lemma TickKeeps(l: Link, room: int, payload: Bytes, tick: int, nextPid: int)
    requires LinkOk(l, tick, nextPid) && Present(l, room) && tick >= 0
    requires IsSnapshot(payload) && Sendable(payload) && Time(payload) == tick + 1
    requires Own(payload, l.co.p.pid) == l.co.p.lastSeq
    ensures LinkOk(TickLink(l, room, payload), tick + 1, nextPid) && TickLink(l, room, payload).co.p.pid == l.co.p.pid
  {
    hide O.Queued, Sends, History, O.Enqueue, IsSnapshot, Sendable, Time, Own, Frame, SendTimes.SlotTime;
    OfferOk(l, Advance(l.co.p), payload);
    HistoryPush(l.co.acks, l.co.p.pid, l.cl.room, tick, l.co.p.lastSeq, payload, tick + 1);
  }

  lemma LaterTick(l: Link, tick: int, now: int, pid: int, nextPid: int)
    requires LinkOk(l, tick, pid) && tick <= now && pid <= nextPid
    ensures LinkOk(l, now, nextPid)
  {
    hide O.Queued, Sends, History;
    HistoryLater(l.co.acks, l.co.p.pid, l.cl.room, tick, l.co.p.lastSeq, now, l.co.p.lastSeq);
  }

  // ---- the whole system ----

  /** Replacing one link by one that is in order, with a player id that nobody else has. */
  lemma OneLink(s: Sys, i: nat, l: Link, nextPid: int)
    requires Inv(s) && i < |s.links| && s.nextPid <= nextPid < TWO32
    requires l.cl.room == s.links[i].cl.room && LinkOk(l, TickOf(s, l.cl.room), nextPid)
    requires l.co.p.pid == s.links[i].co.p.pid || l.co.p.pid > s.nextPid
    ensures Inv(s.(nextPid := nextPid, links := s.links[i := l]))
  {
    hide LinkOk;
    var t := s.(nextPid := nextPid, links := s.links[i := l]);
    forall k | 0 <= k < |t.links| ensures LinkOk(t.links[k], TickOf(t, t.links[k].cl.room), nextPid) {
      if k != i {
        var tick := TickOf(s, s.links[k].cl.room);
        LaterTick(s.links[k], tick, tick, s.nextPid, nextPid);
      }
    }
    PidsKnown(s);
  }

  lemma PidsKnown(s: Sys)
    requires Inv(s)
    ensures forall i | 0 <= i < |s.links| :: 0 <= s.links[i].co.p.pid <= s.nextPid
    ensures forall i | 0 <= i < |s.links| :: s.links[i].co.p.place != Nowhere ==>
              s.links[i].co.p.pid > 0 && 0 <= s.links[i].co.p.lastSeq < TWO32 && Present(s.links[i], s.links[i].cl.room)
    ensures forall r :: 0 <= TickOf(s, r) < TWO32
  {
    hide QueueOk, History;
  }

  lemma ConnectInv(s: Sys, room: int, script: seq<O.WriteResult>)
    requires Inv(s) && Enabled(s, Connect(room, script))
    ensures Inv(Apply(s, Connect(room, script)))
  {
    var l := Connected(room, script);
    assert LinkOk(l, TickOf(s, room), s.nextPid) by {
      hide JoinPayload;
      assert Sends(room, 0) == [JoinPayload(room)];
      assert Concat([]) == [];
      assert O.Frames([]) == [];
    }
    hide LinkOk;
    PidsKnown(s);
  }

  lemma DispatchInv(s: Sys, i: nat)
    requires Inv(s) && Enabled(s, Dispatch(i))
    ensures Inv(Apply(s, Dispatch(i)))
  {
    hide LinkOk, TickOf, Inv;
    PidsKnown(s);
    LinkKnown(s, i);
    var l := s.links[i];
    var room, n, k := l.cl.room, |l.cl.moves|, l.co.handled;
    if k == 0 {
      JoinHandled(l, TickOf(s, room), s.nextPid);
      FirstSend(room, n);
      OneLink(s, i, Dispatched(l, s.nextPid + 1), s.nextPid + 1);
    } else {
      MoveHandled(l, TickOf(s, room), s.nextPid);
      LaterSend(room, n, k);
      OneLink(s, i, Dispatched(l, s.nextPid + 1), s.nextPid);
    }
  }

  lemma LinkKnown(s: Sys, i: nat)
    requires Inv(s) && i < |s.links|
    ensures var l := s.links[i];
            && LinkOk(l, TickOf(s, l.cl.room), s.nextPid)
            && l.cl.out == Sends(l.cl.room, |l.cl.moves|) && |l.cl.out| == |l.cl.moves| + 1
    ensures 0 <= s.nextPid < TWO32
  {
    hide PlayerOk, QueueOk, History;
  }

  lemma LocalInv(s: Sys, a: Action)
    requires Inv(s) && Enabled(s, a) && (a.SendMove? || a.Writable? || a.Read? || a.Close?)
    ensures Inv(Apply(s, a))
  {
    hide LinkOk, TickOf, Inv, IsJoined;
    LinkKnown(s, a.i);
    var l := s.links[a.i];
    var tick := TickOf(s, l.cl.room);
    match a {
      case SendMove(i, now) => MoveKeeps(l, now, tick, s.nextPid); OneLink(s, i, Moved(l, now), s.nextPid);
      case Writable(i) => FlushKeeps(l, tick, s.nextPid); OneLink(s, i, Drained(l), s.nextPid);
      case Read(i, n) => ReadKeeps(l, n, tick, s.nextPid); OneLink(s, i, ReadMore(l, n), s.nextPid);
      case Close(i) => CloseKeeps(l, tick, s.nextPid); OneLink(s, i, Hung(l), s.nextPid);
    }
  }

  /** What the snapshot of a tick tells each member of the room. */
  lemma TickSays(s: Sys, room: int, order: seq<nat>, i: nat)
    requires Inv(s) && Enabled(s, Tick(room, order)) && i < |s.links| && Present(s.links[i], room)
    ensures var p := SnapshotPayload(TickOf(s, room) + 1, Entries(s, order));
            IsSnapshot(p) && Sendable(p) && Time(p) == TickOf(s, room) + 1
            && Own(p, s.links[i].co.p.pid) == s.links[i].co.p.lastSeq && s.links[i].cl.room == room
  {
    hide SnapshotPayload, IsSnapshot, Sendable, Time, Own, LinkOk, TickOf, Wrap32;
    PidsKnown(s);
    var es := Entries(s, order);
    forall k | 0 <= k < |order|
      ensures order[k] < |s.links| && Present(s.links[order[k]], room)
      ensures es[k].pid == s.links[order[k]].co.p.pid && es[k].lastSeq == s.links[order[k]].co.p.lastSeq
    {
      assert order[k] in order;
    }
    forall k, m | 0 <= k < m < |es| ensures es[k].pid != es[m].pid {
      assert order[k] != order[m];
    }
    var k :| 0 <= k < |order| && order[k] == i;
    SnapshotSays(TickOf(s, room) + 1, es, k);
  }

  lemma TickInv(s: Sys, room: int, order: seq<nat>)
    requires Inv(s) && Enabled(s, Tick(room, order))
    ensures Inv(Apply(s, Tick(room, order)))
  {
    hide SnapshotPayload, IsSnapshot, Sendable, Time, Own, LinkOk, Entries, Ticked, Frame;
    var now := TickOf(s, room) + 1;
    var p := SnapshotPayload(now, Entries(s, order));
    PidsKnown(s);
    var t := Apply(s, Tick(room, order));
    assert now % TWO32 == now && t.ticks == s.ticks[room := now];
    forall i | 0 <= i < |t.links|
      ensures LinkOk(t.links[i], TickOf(t, t.links[i].cl.room), t.nextPid) && t.links[i].co.p.pid == s.links[i].co.p.pid
    {
      var l := s.links[i];
      if Present(l, room) {
        TickSays(s, room, order, i);
        TickKeeps(l, room, p, now - 1, s.nextPid);
      } else {
        LaterTick(l, TickOf(s, l.cl.room), TickOf(t, l.cl.room), s.nextPid, s.nextPid);
      }
    }
  }

  lemma ElsewhereInv(s: Sys)
    requires Inv(s) && Enabled(s, Elsewhere)
    ensures Inv(Apply(s, Elsewhere))
  {
    hide LinkOk;
    var t := Apply(s, Elsewhere);
    forall i | 0 <= i < |t.links| ensures LinkOk(t.links[i], TickOf(t, t.links[i].cl.room), t.nextPid) {
      LaterTick(s.links[i], TickOf(s, s.links[i].cl.room), TickOf(t, s.links[i].cl.room), s.nextPid, t.nextPid);
    }
  }

  lemma StepInv(s: Sys, a: Action)
    requires Inv(s) && Enabled(s, a)
    ensures Inv(Apply(s, a))
  {
    hide Inv, Enabled, Apply;
    match a
    case Connect(room, script) => ConnectInv(s, room, script);
    case Dispatch(i) => DispatchInv(s, i);
    case Tick(room, order) => TickInv(s, room, order);
    case Elsewhere => ElsewhereInv(s);
    case _ => LocalInv(s, a);
  }

  lemma {:induction false} RunInv(s: Sys, acts: seq<Action>, end: Sys)
    requires Inv(s) && Run(s, acts, end)
    ensures Inv(end)
    decreases |acts|
  {
    hide Inv, Enabled, Apply;
    if acts != [] {
      StepInv(s, acts[0]);
      RunInv(Apply(s, acts[0]), acts[1..], end);
    }
  }

  /** What a client has observed: an acknowledgement with its own id and room comes first; then only
      snapshots, of strictly increasing ticks however many were shed; the number of its last move
      that they echo never decreases and is one it has sent; and while fewer than 256 newer moves
      were sent, its slot holds the time at which that move was sent. */
  predicate Observed(l: Link)
  {
    var log, me, n := Received(l), l.co.p.pid, |l.cl.moves|;
    && log <= l.co.acks
    && (log != [] ==> log[0] == JoinedPayload(me, l.cl.room))
    && (forall j | 1 <= j < |log| :: IsSnapshot(log[j]) && 0 <= Own(log[j], me) <= n)
    && (forall j, k | 1 <= j < k < |log| :: Time(log[j]) < Time(log[k]) && Own(log[j], me) <= Own(log[k], me))
    && |l.cl.slots| == SendTimes.RING
    && (forall j | 1 <= j < |log| && 1 <= Own(log[j], me) && n - Own(log[j], me) < SendTimes.RING ::
          l.cl.slots[Own(log[j], me) % SendTimes.RING] == l.cl.moves[Own(log[j], me) - 1])
  }

  /** In every reachable state, every client has observed just that. */
  lemma ClientObserves(acts: seq<Action>, s: Sys, i: nat)
    requires Run(INIT, acts, s) && i < |s.links|
    ensures Observed(s.links[i])
  {
    hide Observed, Run, LinkOk;
    RunInv(INIT, acts, s);
    LinkKnown(s, i);
    LinkObserves(s.links[i], TickOf(s, s.links[i].cl.room), s.nextPid);
  }

  lemma LinkObserves(l: Link, tick: int, nextPid: int)
    requires LinkOk(l, tick, nextPid)
    ensures Observed(l)
  {
    hide IsSnapshot, Own, Time, JoinedPayload, SendTimes.SlotTime, Received, O.Queued, Sends;
    SeenIsAdmitted(l);
    var log, me, n := Received(l), l.co.p.pid, |l.cl.moves|;
    forall j | 1 <= j < |log|
      ensures IsSnapshot(log[j]) && 0 <= Own(log[j], me) <= n
      ensures 1 <= Own(log[j], me) && n - Own(log[j], me) < SendTimes.RING ==>
                l.cl.slots[Own(log[j], me) % SendTimes.RING] == l.cl.moves[Own(log[j], me) - 1]
    {
      assert log[j] == l.co.acks[j];
      var q := Own(log[j], me);
      if 1 <= q { SendTimes.SlotTimeOf(l.cl.moves, q); }
    }
  }

  /** The bytes a client has read parse into the first few admitted payloads. */
  lemma SeenIsAdmitted(l: Link)
    requires QueueOk(l)
    ensures Received(l) <= l.co.acks
  {
    hide Concat, Stream;
    var o := l.co.p.o;
    O.ConcatFrames(l.co.acks);
    var got := o.sent[..l.cl.read];
    assert o.sent <= o.sent + o.wbuf;
    assert got <= Stream(l.co.acks);
    var k := PrefixOfStream([], l.co.acks, got);
    assert [] + l.co.acks[..k] == l.co.acks[..k];
  }
}
