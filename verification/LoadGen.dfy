/** One worker of the open-loop load generator (loadgen-odin): its connections, the send ring,
    and the loop that fires every deadline that has passed. The clock is a parameter of each
    step and never runs backwards. */
module LoadGen {
  import opened SendTimes
  import opened Sched
  import opened Sequences
  import S = Schedule

  ghost function Fired(q: seq<Client>): (ns: seq<nat>)
    reads q`times
    ensures |ns| == |q| && forall i | 0 <= i < |q| :: ns[i] == |q[i].times|
  {
    if q == [] then [] else Fired(q[..|q| - 1]) + [|q[|q| - 1].times|]
  }

  /** How many of these times are later than `limit`. */
  function After(times: seq<int>, limit: int): nat
  {
    if times == [] then 0 else After(times[..|times| - 1], limit) + if times[|times| - 1] > limit then 1 else 0
  }

  ghost function FiredAfter(q: seq<Client>, limit: int): (ns: seq<nat>)
    reads q`times
    ensures |ns| == |q| && forall i | 0 <= i < |q| :: ns[i] == After(q[i].times, limit)
  {
    if q == [] then [] else FiredAfter(q[..|q| - 1], limit) + [After(q[|q| - 1].times, limit)]
  }

  /** Sends are accounted for: each moved the deadline one interval on, and what the deadline
      moved beyond that is slack lost to snap-forwards. */
  ghost predicate Accounted(c: Client, clock: int, interval: int)
    reads c`joined, c`nextSend, c`joinedAt, c`times, c`slack
  {
    if c.joined then
      c.nextSend == c.joinedAt + (|c.times| + 1) * interval + c.slack && |c.times| * interval <= clock - c.joinedAt
    else c.times == []
  }

  /** All connections and their buffers are different, and each is in order. */
  ghost predicate ClientsOk(conns: seq<Client>, clock: int, interval: int)
    reads conns`seqNo, conns`times, conns`joined, conns`nextSend, conns`joinedAt, conns`slack
    reads set c | c in conns :: c.sendAt
  {
    && Distinct(conns)
    && (forall c, d | c in conns && d in conns && c != d :: c.sendAt != d.sendAt)
    && (forall c | c in conns :: c.Valid() && Accounted(c, clock, interval))
  }

  /** Exactly the joined connections not yet dropped as dead are queued, once each. */
  ghost predicate QueueOk(q: seq<Client>, conns: seq<Client>)
    reads conns`joined, conns`dropped, conns`dead
  {
    && Distinct(q)
    && (forall i | 0 <= i < |q| :: q[i] in conns && q[i].joined && !q[i].dropped)
    && (forall c | c in conns && c.joined && !c.dropped :: c in q)
    && (forall c | c in conns && c.dropped :: c.joined && c.dead)
  }

  /** The disorder of the queue is bounded, and no deadline is further away than one interval. */
  ghost predicate OrderOk(q: seq<Client>, clock: int, interval: int)
    reads q`nextSend
  {
    && (forall i, j | 0 <= i < j < |q| :: q[i].nextSend <= q[j].nextSend + 2 * interval)
    && (forall i | 0 <= i < |q| :: q[i].nextSend <= clock + interval)
  }

  lemma QueueSize(q: seq<Client>, conns: seq<Client>)
    requires QueueOk(q, conns)
    ensures |q| <= |conns|
  {
    forall c | c in q ensures c in conns {
      var i :| 0 <= i < |q| && q[i] == c;
    }
    DistinctWithin(q, conns);
  }

  lemma QueueRotate(q: seq<Client>, conns: seq<Client>)
    requires QueueOk(q, conns) && q != []
    ensures QueueOk(q[1..] + [q[0]], conns)
  {
    var r := q[1..] + [q[0]];
    forall c | c in q ensures c in r {
      var i :| 0 <= i < |q| && q[i] == c;
      assert if i == 0 then r[|q| - 1] == c else r[i - 1] == c;
    }
  }

  /** The head was found dead and marked as dropped; all others are as they should be. */
  lemma QueueDrop(q: seq<Client>, conns: seq<Client>)
    requires q != [] && Distinct(q) && q[0].dropped
    requires forall i | 0 < i < |q| :: q[i] in conns && q[i].joined && !q[i].dropped
    requires forall c | c in conns && c.joined && !c.dropped :: c in q
    requires forall c | c in conns && c.dropped :: c.joined && c.dead
    ensures QueueOk(q[1..], conns)
  {
    forall c | c in conns && c.joined && !c.dropped ensures c in q[1..] {
      var i :| 0 <= i < |q| && q[i] == c;
      assert q[1..][i - 1] == c;
    }
  }

  lemma QueuePush(q: seq<Client>, c: Client, conns: seq<Client>)
    requires Distinct(q) && c !in q && c in conns && c.joined && !c.dropped
    requires forall i | 0 <= i < |q| :: q[i] in conns && q[i].joined && !q[i].dropped
    requires forall d | d in conns && d != c && d.joined && !d.dropped :: d in q
    requires forall d | d in conns && d.dropped :: d.joined && d.dead
    ensures QueueOk(q + [c], conns)
  {
  }

  lemma OrderPush(q: seq<Client>, c: Client, now: int, interval: int)
    requires OrderOk(q, now, interval) && now - interval <= c.nextSend <= now + interval
    ensures OrderOk(q + [c], now, interval)
  {
  }

  lemma OrderPop(q: seq<Client>, now: int, interval: int)
    requires q != [] && OrderOk(q, now, interval)
    ensures OrderOk(q[1..], now, interval)
  {
  }

  /** How much of a send pass each queued connection can still use up. */
  ghost function Pending(q: seq<Client>, now: int, interval: int): (ns: seq<nat>)
    reads q`dead, q`nextSend
    ensures |ns| == |q|
    ensures forall i | 0 <= i < |q| :: ns[i] == if q[i].dead then 1 else Fires(now - q[i].nextSend, interval)
  {
    if q == [] then [] else
    var c := q[|q| - 1];
    Pending(q[..|q| - 1], now, interval) + [if c.dead then 1 else Fires(now - c.nextSend, interval)]
  }

  ghost function StatusOf(c: Client): S.Status
    reads c`dead, c`joined, c`myId, c`joinedAt, c`nextSend, c`times
  {
    S.Status(c.dead, c.joined, c.myId, c.joinedAt, c.nextSend, c.times)
  }

  /** What a connection has sent, together with what it is due to send by now. */
  ghost function Due(c: Client, now: int, interval: int): (n: nat)
    reads c`joined, c`dead, c`times, c`nextSend
    ensures |c.times| <= n <= |c.times| + 3
  {
    |c.times| + if c.joined && !c.dead then Fires(now - c.nextSend, interval) else 0
  }

  class Worker {
    const interval: int
    const conns: seq<Client>
    const ring: Ring
    const start: int
    const warm: int
    var movesSent: nat
    var movesMeasured: nat
    ghost var clock: int

    /** The counters count all sends, and those after warm-up. */
    ghost predicate Counted()
      reads `movesSent, `movesMeasured, conns`times
    {
      movesSent == Sum(Fired(conns)) && movesMeasured == Sum(FiredAfter(conns, start + warm))
    }

    ghost predicate Valid()
      reads this, ring, ring.buf, conns, ring.queue`nextSend, set c | c in conns :: c.sendAt
    {
      && interval > 0 && ring.Valid() && ring.buf.Length == |conns| + 1
      && ClientsOk(conns, clock, interval)
      && QueueOk(ring.queue, conns)
      && OrderOk(ring.queue, clock, interval)
      && Counted()
    }

    constructor (conns: seq<Client>, interval: int, start: int, warm: int, now: int)
      requires interval > 0 && Distinct(conns)
      requires forall c, d | c in conns && d in conns && c != d :: c.sendAt != d.sendAt
      requires forall c | c in conns :: c.Valid() && !c.joined && !c.dropped && c.times == []
      ensures Valid() && this.conns == conns && this.interval == interval && clock == now && movesSent == 0
    {
      hide Sum, Fired, FiredAfter, Client.Valid, Counted;
      this.conns, this.interval, this.start, this.warm := conns, interval, start, warm;
      ring := new Ring(|conns| + 1);
      movesSent, movesMeasured, clock := 0, 0, now;
      new;
      NoneCounted();
    }

    lemma NoneCounted()
      requires movesSent == 0 && movesMeasured == 0 && forall c | c in conns :: c.times == []
      ensures Counted()
    {
      NoneFired(conns, start + warm);
    }

    method Kill(c: Client)
      requires Valid() && c in conns
      modifies c`dead
      ensures Valid() && c.dead
    {
      hide Sum, Counted, ClientsOk, OrderOk;
      c.dead := true;
    }

    /** The acknowledgement of a JOIN puts a connection into the schedule, the first time. */
    method HandleJoined(c: Client, id: int, now: int)
      requires Valid() && c in conns && clock <= now
      modifies this`clock, ring, ring.buf, c`myId, c`joined, c`nextSend, c`joinedAt, c`slack
      ensures Valid() && clock == now && c.myId == id && c.joined
      ensures old(c.joined) ==>
                ring.queue == old(ring.queue) && c.nextSend == old(c.nextSend) && c.joinedAt == old(c.joinedAt)
      ensures !old(c.joined) ==>
                ring.queue == old(ring.queue) + [c] && c.nextSend == now + interval && c.joinedAt == now
    {
      hide Sum, Counted, ClientsOk, QueueOk, OrderOk;
      Later(now);
      SetId(c, id);
      if !c.joined { Enter(c, now); }
    }

    method SetId(c: Client, id: int)
      requires Valid() && c in conns
      modifies c`myId
      ensures Valid() && c.myId == id
    {
      hide Sum, Counted, ClientsOk, QueueOk, OrderOk;
      c.myId := id;
    }

    /** Time passes. */
    ghost method Later(now: int)
      requires Valid() && clock <= now
      modifies this`clock
      ensures Valid() && clock == now
    {
      hide Sum, Counted, Newest, QueueOk;
      clock := now;
    }

    method Enter(c: Client, now: int)
      requires Valid() && c in conns && clock == now && !c.joined
      modifies ring, ring.buf, c`joined, c`nextSend, c`joinedAt, c`slack
      ensures Valid() && c.joined && ring.queue == old(ring.queue) + [c]
      ensures c.nextSend == now + interval && c.joinedAt == now
    {
      hide Sum, Counted, ClientsOk, QueueOk, OrderOk;
      QueueSize(ring.queue, conns);
      NotQueued(c, ring.queue);
      SetDeadline(c, now);
      Enlist(c, ring.queue);
      OrderPush(ring.queue, c, now, interval);
      ring.Push(c);
    }

    lemma NotQueued(c: Client, q: seq<Client>)
      requires QueueOk(q, conns) && !c.joined
      ensures c !in q
    {
    }

    method SetDeadline(c: Client, now: int)
      requires ClientsOk(conns, clock, interval) && c in conns && !c.joined && clock == now
      modifies c`nextSend, c`joinedAt, c`slack
      ensures ClientsOk(conns, clock, interval) && c.nextSend == now + interval && c.joinedAt == now && c.slack == 0
    {
      hide Newest;
      c.joinedAt, c.slack := now, 0;
      c.nextSend := now + interval;
    }

    method Enlist(c: Client, ghost q: seq<Client>)
      requires ClientsOk(conns, clock, interval) && QueueOk(q, conns) && c in conns && !c.joined
      requires c.nextSend == clock + interval && c.joinedAt == clock && c.slack == 0
      modifies c`joined
      ensures c.joined && ClientsOk(conns, clock, interval) && QueueOk(q + [c], conns)
    {
      hide Newest;
      NotQueued(c, q);
      c.joined := true;
      QueuePush(q, c, conns);
    }

    /** The state with `head` taken out of the ring. */
    ghost predicate Taken(head: Client)
      reads this, ring, ring.buf, conns, head, ring.queue`nextSend, set c | c in conns :: c.sendAt
    {
      && interval > 0 && ring.Valid() && ring.buf.Length == |conns| + 1 && |ring.queue| < |conns|
      && ClientsOk(conns, clock, interval)
      && head in conns && head.joined && head !in ring.queue
      && QueueOk([head] + ring.queue, conns)
      && OrderOk(ring.queue, clock, interval)
      && Counted()
    }

    method Take() returns (head: Client)
      requires Valid() && ring.count > 0
      modifies ring`head, ring`count, ring`queue
      ensures Taken(head) && head == old(ring.queue)[0] && ring.queue == old(ring.queue)[1..]
    {
      hide Sum, Counted, ClientsOk, QueueOk, OrderOk;
      ghost var q := ring.queue;
      QueueSize(q, conns);
      HeadKnown(q);
      OrderPop(q, clock, interval);
      head := ring.Pop();
      assert q == [head] + ring.queue;
    }

    /** The head has been found due: it is taken out for good if it is dead; else it sends, and
        goes to the back with its next deadline. */
    method FireHead(ghost head: Client, now: int)
      requires Valid() && clock == now && ring.count > 0 && head == ring.queue[0] && head.nextSend <= now
      modifies this`movesSent, this`movesMeasured, ring, ring.buf
      modifies head`seqNo, head`times, head`nextSend, head`slack, head`dropped
      modifies head.sendAt
      ensures Valid()
      ensures if head.dead then
                ring.queue == old(ring.queue)[1..] && head.times == old(head.times)
                  && head.nextSend == old(head.nextSend)
              else
                ring.queue == old(ring.queue)[1..] + [head] && head.times == old(head.times) + [now]
                && head.nextSend == Advance(old(head.nextSend), now, interval)
    {
      hide Valid, Taken, Ring.Valid, Sum, Advance;
      var c := Take();
      if c.dead {
        Drop(c);
        return;
      }
      FireLive(c, now);
    }

    /** A dead head leaves the schedule. */
    ghost method Drop(c: Client)
      requires Taken(c) && c.dead
      modifies c`dropped
      ensures Valid()
    {
      hide Sum, Counted, ClientsOk, OrderOk, Ring.Valid;
      ghost var q := [c] + ring.queue;
      c.dropped := true;
      QueueDrop(q, conns);
      assert q[1..] == ring.queue;
    }

    method FireLive(c: Client, now: int)
      requires Taken(c) && !c.dead && clock == now && c.nextSend <= now
      modifies this`movesSent, this`movesMeasured, ring`count, ring`queue, ring.buf, c`seqNo, c`times, c.sendAt,
               c`nextSend, c`slack
      ensures Valid() && c.times == old(c.times) + [now] && c.nextSend == Advance(old(c.nextSend), now, interval)
      ensures ring.queue == old(ring.queue) + [c]
    {
      hide Sum, Counted, ClientsOk, QueueOk, OrderOk, Advance;
      ghost var q := ring.queue;
      QueueRotate([c] + q, conns);
      assert ([c] + q)[1..] == q;
      Fire(c, now);
      OrderPush(q, c, now, interval);
      ring.Push(c);
    }

    lemma HeadKnown(q: seq<Client>)
      requires QueueOk(q, conns) && q != []
      ensures q[0] in conns && q[0].joined && q[0] !in q[1..]
    {
    }

    /** One round of the pass uses up one firing. */
    method FireNext(ghost head: Client, now: int)
      requires Valid() && clock == now && ring.count > 0 && head == ring.queue[0] && head.nextSend <= now
      modifies this`movesSent, this`movesMeasured, ring, ring.buf
      modifies head`seqNo, head`times, head`nextSend, head`slack, head`dropped
      modifies head.sendAt
      ensures Valid() && Sum(Pending(ring.queue, now, interval)) < Sum(old(Pending(ring.queue, now, interval)))
      ensures head.joined && Due(head, now, interval) == old(Due(head, now, interval))
      ensures if head.dead then
                && ring.queue == old(ring.queue)[1..]
                && head.times == old(head.times) && head.nextSend == old(head.nextSend)
              else
                ring.queue == old(ring.queue)[1..] + [head] && head.times == old(head.times) + [now]
                && head.nextSend == Advance(old(head.nextSend), now, interval)
    {
      hide Valid, Ring.Valid, Sum, Advance, Fires, Pending;
      ghost var before := Pending(ring.queue, now, interval);
      HeadAlone();
      FiresBound(now - head.nextSend, interval);
      AdvanceFires(head.nextSend, now, interval);
      FireHead(head, now);
      ghost var after := Pending(ring.queue, now, interval);
      assert after == before[1..] + if head.dead then [] else [before[0] - 1];
      OneLess(before, after);
    }

    /** What the schedule is about. */
    ghost function View(): S.Plan<Client>
      reads ring`queue, conns`dead, conns`joined, conns`myId, conns`joinedAt, conns`nextSend, conns`times
    {
      S.Plan(ring.queue, map c | c in conns :: StatusOf(c))
    }

    lemma ViewOk()
      requires Valid()
      ensures S.Ok(View()) && View().st.Keys == (set c | c in conns) && interval > 0
    {
      hide Sum, Counted, ClientsOk, OrderOk;
      forall c | c in ring.queue ensures c in conns && c.joined {
        var i :| 0 <= i < |ring.queue| && ring.queue[i] == c;
      }
    }

    /** Nobody's sends and dues together have changed, nor the sends of the dead. */
    ghost predicate Kept(due: map<Client, nat>, sent: map<Client, seq<int>>, now: int)
      reads conns`joined, conns`dead, conns`times, conns`nextSend
    {
      forall c | c in conns ::
        && c in due && Due(c, now, interval) == due[c]
        && c in sent && (c.dead || !c.joined ==> c.times == sent[c])
    }

    method FireKeeps(ghost head: Client, now: int, ghost due: map<Client, nat>, ghost sent: map<Client, seq<int>>)
      requires Valid() && clock == now && ring.count > 0 && head == ring.queue[0] && head.nextSend <= now
      requires Kept(due, sent, now)
      modifies this`movesSent, this`movesMeasured, ring, ring.buf
      modifies head`seqNo, head`times, head`nextSend, head`slack, head`dropped
      modifies head.sendAt
      ensures Valid() && Sum(Pending(ring.queue, now, interval)) < Sum(old(Pending(ring.queue, now, interval)))
      ensures Kept(due, sent, now)
      ensures S.Ok(old(View())) && |old(View()).ring| > 0 && View() == S.Fire(old(View()), now, interval)
    {
      hide Valid, Ring.Valid, Sum, Due, View, S.Fire;
      HeadAlone();
      FireViewed(head, now);
    }

    method FireViewed(ghost head: Client, now: int)
      requires Valid() && clock == now && ring.count > 0 && head == ring.queue[0] && head.nextSend <= now
      modifies this`movesSent, this`movesMeasured, ring, ring.buf
      modifies head`seqNo, head`times, head`nextSend, head`slack, head`dropped
      modifies head.sendAt
      ensures Valid() && Sum(Pending(ring.queue, now, interval)) < Sum(old(Pending(ring.queue, now, interval)))
      ensures Due(head, now, interval) == old(Due(head, now, interval))
      ensures head.dead ==> head.times == old(head.times)
      ensures S.Ok(old(View())) && |old(View()).ring| > 0 && View() == S.Fire(old(View()), now, interval)
    {
      hide Valid, Ring.Valid, Sum, Due, Pending, Advance;
      ViewOk();
      HeadAlone();
      FireNext(head, now);
    }

    lemma PassDone()
      requires Valid() && (ring.count > 0 ==> ring.queue[0].nextSend > clock)
      ensures interval > 0 && (ring.queue != [] ==> ring.count > 0)
      ensures forall i | 0 <= i < |ring.queue| :: clock - ring.queue[i].nextSend < 2 * interval
    {
      hide Sum, Counted, ClientsOk, QueueOk;
    }

    lemma HeadAlone()
      requires Valid() && ring.count > 0
      ensures interval > 0 && ring.Valid() && ring.queue != []
      ensures ring.queue[0] in conns && ring.queue[0].joined && !ring.queue[0].dropped
      ensures ring.queue[0] !in ring.queue[1..]
    {
      hide Sum, Counted, ClientsOk, OrderOk;
    }

    /** Fires every deadline that has passed. The pass ends, with the clock fixed, however late the
        worker is. No connection sends more than its lateness allows, so never more than three
        times; nothing is left two intervals or more overdue; and the ring turns exactly as its
        deadlines and its dead say. */
    method SendPass(now: int)
      requires Valid() && clock <= now
      modifies this`clock, this`movesSent, this`movesMeasured, ring, ring.buf
      modifies conns`seqNo, conns`times, conns`nextSend, conns`slack, conns`dropped, set c | c in conns :: c.sendAt
      ensures Valid() && clock == now
      ensures ring.queue != [] ==> ring.queue[0].nextSend > now
      ensures forall i | 0 <= i < |ring.queue| :: now - ring.queue[i].nextSend < 2 * interval
      ensures forall d | d in conns && (d.dead || !d.joined) :: d.times == old(d.times)
      ensures forall d | d in conns :: Due(d, now, interval) == old(Due(d, now, interval))
      ensures forall d | d in conns :: |d.times| <= |old(d.times)| + 3
      ensures View() == old(AfterPass(now))
    {
      hide Valid, Ring.Valid, Due, View, AfterPass, S.Pass;
      AfterPassIs(now);
      Later(now);
      AfterPassIs(now);
      PassLoop(now, map c | c in conns :: Due(c, now, interval), map c | c in conns :: c.times);
    }

    method PassLoop(now: int, ghost due: map<Client, nat>, ghost sent: map<Client, seq<int>>)
      requires Valid() && clock == now && Kept(due, sent, now)
      modifies this`movesSent, this`movesMeasured, ring, ring.buf
      modifies conns`seqNo, conns`times, conns`nextSend, conns`slack, conns`dropped, set c | c in conns :: c.sendAt
      ensures Valid() && Kept(due, sent, now) && interval > 0
      ensures ring.queue != [] ==> ring.queue[0].nextSend > now
      ensures forall i | 0 <= i < |ring.queue| :: now - ring.queue[i].nextSend < 2 * interval
      ensures View() == old(AfterPass(now))
    {
      hide Valid, Ring.Valid, Kept, View, Sum, S.Pass;
      ViewOk();
      ghost var before := View();
      while ring.count > 0
        invariant Valid() && Kept(due, sent, now)
        invariant S.Ok(View()) && S.Pass(View(), now, interval) == S.Pass(before, now, interval)
        decreases Sum(Pending(ring.queue, now, interval))
      {
        HeadAlone();
        var head := ring.Head();
        if head.nextSend > now { break; }
        HeadViewed();
        S.PassFire(View(), now, interval);
        FireKeeps(head, now, due, sent);
      }
      PassDone();
      PassEnds(now);
    }

    /** What a send pass makes of the schedule. */
    ghost function AfterPass(now: int): S.Plan<Client>
      requires Valid()
      reads this, ring, ring.buf, conns, ring.queue`nextSend, set c | c in conns :: c.sendAt
    {
      ViewOk();
      S.Pass(View(), now, interval)
    }

    lemma HeadViewed()
      requires Valid() && ring.count > 0
      ensures ring.queue != [] && View().ring == ring.queue
      ensures ring.queue[0] in View().st && View().st[ring.queue[0]].due == ring.queue[0].nextSend
    {
      hide Sum, Counted, ClientsOk, OrderOk;
    }

    lemma AfterPassIs(now: int)
      requires Valid()
      ensures S.Ok(View()) && interval > 0 && AfterPass(now) == S.Pass(View(), now, interval)
    {
      ViewOk();
    }

    lemma PassEnds(now: int)
      requires S.Ok(View()) && interval > 0 && (ring.queue != [] ==> ring.queue[0].nextSend > now)
      ensures S.Pass(View(), now, interval) == View()
    {
    }

    /** One event; a dead connection has none. */
    method HandleEvent(e: S.Event, now: int)
      requires Valid() && clock == now && e.conn < |conns|
      modifies this`clock, ring, ring.buf
      modifies conns`dead, conns`myId, conns`joined, conns`nextSend, conns`joinedAt, conns`slack
      ensures Valid() && clock == now && S.Ok(old(View())) && conns[e.conn] in old(View()).st
      ensures View() == S.After(old(View()), conns[e.conn], e, now, interval)
    {
      hide Valid, Ring.Valid;
      ViewOk();
      var c := conns[e.conn];
      if !c.dead {
        match e
        case Failed(_) => Kill(c);
        case Acknowledged(_, id) => HandleJoined(c, id, now);
      }
    }

    /** The events of one wakeup. */
    method HandleEvents(events: seq<S.Event>, now: int)
      requires Valid() && clock <= now && S.Known(events, |conns|)
      modifies this`clock, ring, ring.buf
      modifies conns`dead, conns`myId, conns`joined, conns`nextSend, conns`joinedAt, conns`slack
      ensures Valid() && clock == now
      ensures S.Ok(old(View())) && (forall c | c in conns :: c in old(View()).st)
              && View() == S.AfterAll(old(View()), conns, events, now, interval)
    {
      hide Valid, Ring.Valid, View, S.After;
      ViewOk();
      ghost var before := View();
      Later(now);
      assert View() == S.AfterAll(before, conns, events[..0], now, interval);
      for i := 0 to |events|
        invariant Valid() && clock == now
        invariant View() == S.AfterAll(before, conns, events[..i], now, interval)
      {
        assert events[i] in events && events[..i + 1][..i] == events[..i];
        HandleEvent(events[i], now);
      }
      assert events[..|events|] == events;
    }

    /** Any run of the worker does to everyone what the schedule says, and keeps its invariant. */
    method Run(turns: seq<S.Turn>)
      requires Valid() && S.Forward(turns, clock)
      requires forall t | t in turns :: S.Known(t.events, |conns|)
      modifies this`clock, this`movesSent, this`movesMeasured, ring, ring.buf, conns, set c | c in conns :: c.sendAt
      ensures Valid()
      ensures S.Ok(old(View())) && interval > 0 && (forall c | c in conns :: c in old(View()).st)
              && View() == S.Run(old(View()), conns, turns, interval)
      ensures turns != [] ==> clock == turns[|turns| - 1].sends && OnSchedule()
    {
      hide Valid, Ring.Valid, OnSchedule, View, AfterPass, S.Pass, S.AfterAll;
      ViewOk();
      ghost var before := View();
      for i := 0 to |turns|
        invariant Valid() && S.Forward(turns[i..], clock)
        invariant View() == S.Run(before, conns, turns[..i], interval)
        invariant i > 0 ==> clock == turns[i - 1].sends && OnSchedule()
      {
        assert turns[i] in turns && turns[i..][0] == turns[i] && turns[i..][1..] == turns[i + 1..];
        assert turns[..i + 1][..i] == turns[..i];
        HandleEvents(turns[i].events, turns[i].woke);
        AfterPassIs(turns[i].sends);
        SendPass(turns[i].sends);
        Schedule();
      }
      assert turns[..|turns|] == turns;
    }

    /** What a connection that is still alive has sent, with the time it lost to snap-forwards,
        covers the time since it joined, up to three intervals. */
    ghost predicate OnSchedule()
      reads this`clock, conns`joined, conns`dead, conns`times, conns`joinedAt, conns`slack
    {
      forall c | c in conns && c.joined && !c.dead ::
        |c.times| * interval + c.slack <= clock - c.joinedAt < (|c.times| + 3) * interval + c.slack
    }

    lemma Schedule()
      requires Valid() && forall i | 0 <= i < |ring.queue| :: clock - ring.queue[i].nextSend < 2 * interval
      ensures OnSchedule()
    {
      hide Sum, Counted, Newest, Client.Valid;
      forall c | c in conns && c.joined && !c.dead
        ensures |c.times| * interval + c.slack <= clock - c.joinedAt < (|c.times| + 3) * interval + c.slack
      {
        assert c in ring.queue;
        var n := |c.times|;
        assert (n + 3) * interval == (n + 1) * interval + 2 * interval && (n + 1) * interval == n * interval + interval;
      }
    }

    /** The accounts of a worker at any moment: each deadline, no connection ahead of its rate,
        the total, and room in the ring. */
    lemma Accounts(c: Client)
      requires Valid() && c in conns && c.joined
      ensures c.nextSend == c.joinedAt + (|c.times| + 1) * interval + c.slack
      ensures |c.times| <= (clock - c.joinedAt) / interval
      ensures movesSent == Sum(Fired(conns)) && movesMeasured == Sum(FiredAfter(conns, start + warm))
      ensures ring.count <= |conns| < ring.buf.Length
    {
      hide Sum, Newest, Fired, FiredAfter, OrderOk;
      QueueSize(ring.queue, conns);
      AtMost(|c.times|, clock - c.joinedAt, interval);
    }

    /** One send of a connection that is due. */
    method Fire(c: Client, now: int)
      requires ClientsOk(conns, clock, interval) && interval > 0 && c in conns && clock == now
      requires c.joined && c.nextSend <= now && Counted()
      modifies this`movesSent, this`movesMeasured, c`seqNo, c`times, c.sendAt, c`nextSend, c`slack
      ensures ClientsOk(conns, clock, interval) && c.times == old(c.times) + [now] && Counted()
      ensures c.nextSend == Advance(old(c.nextSend), now, interval) && now - interval <= c.nextSend <= now + interval
    {
      hide Sum, Counted, Newest, Client.Valid;
      ghost var was, n := c.nextSend, |c.times|;
      AdvanceFires(was, now, interval);
      SendMove(c, now);
      c.nextSend := c.nextSend + interval;
      if now - c.nextSend > interval { c.nextSend := now + interval; }
      c.slack := c.slack + (c.nextSend - was - interval);
      assert (n + 2) * interval == (n + 1) * interval + interval;
    }

    /** Open loop: stamp and count, whatever comes back. */
    method SendMove(c: Client, now: int)
      requires c in conns && c.Valid() && Distinct(conns) && Counted()
      modifies this`movesSent, this`movesMeasured, c`seqNo, c`times, c.sendAt
      ensures c.Valid() && c.times == old(c.times) + [now] && Counted()
    {
      hide Sum, Newest, Fired, FiredAfter, After, Client.Valid;
      ghost var i :| 0 <= i < |conns| && conns[i] == c;
      ghost var fired, after := Fired(conns), FiredAfter(conns, start + warm);
      AfterPush(c.times, now, start + warm);
      c.Stamp(now);
      movesSent := movesSent + 1;
      if now - start > warm { movesMeasured := movesMeasured + 1; }
      SumUpdate(fired, i, |c.times|);
      SumUpdate(after, i, After(c.times, start + warm));
      assert Fired(conns) == fired[i := |c.times|];
      assert FiredAfter(conns, start + warm) == after[i := After(c.times, start + warm)];
    }
  }

  lemma OneLess(before: seq<nat>, after: seq<nat>)
    requires before != [] && before[0] > 0
    requires after == before[1..] || after == before[1..] + [before[0] - 1]
    ensures Sum(after) < Sum(before)
  {
    hide Sum;
    SumPop(before);
    SumPush(before[1..], before[0] - 1);
  }

  lemma NoneFired(q: seq<Client>, limit: int)
    requires forall c | c in q :: c.times == []
    ensures Sum(Fired(q)) == 0 && Sum(FiredAfter(q, limit)) == 0
  {
    hide Sum;
    SumZero(Fired(q));
    SumZero(FiredAfter(q, limit));
  }

  lemma AfterPush(times: seq<int>, now: int, limit: int)
    ensures After(times + [now], limit) == After(times, limit) + if now > limit then 1 else 0
  {
    assert (times + [now])[..|times|] == times;
  }

  lemma AtMost(n: nat, t: int, d: int)
    requires d > 0 && n * d <= t
    ensures n <= t / d
  {
    var k := n - t / d;
    assert k * d == n * d - d * (t / d) && k * d < d;
    assert k >= 1 ==> k * d >= d;
  }

  lemma {:induction false} SumZero(xs: seq<nat>)
    requires forall i | 0 <= i < |xs| :: xs[i] == 0
    ensures Sum(xs) == 0
  {
    if xs != [] { SumZero(xs[..|xs| - 1]); }
  }
}
