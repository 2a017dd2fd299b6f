/** The send schedule of a load generator worker (loadgen-odin) as a function of what happened: who
    is in the ring, and what became of each connection, after any events and send passes. */
module Schedule {
  import opened SendTimes
  import opened Sequences
  import R = RingOrder

  /** A connection as the schedule sees it: its next deadline and all its send times so far. */
  datatype Status = Status(dead: bool, joined: bool, id: int, joinedAt: int, due: int, times: seq<int>)

  datatype Plan<!C> = Plan(ring: seq<C>, st: map<C, Status>)

  /** What a wakeup reports about a connection: it is gone, or its JOIN was acknowledged. */
  datatype Event = Failed(conn: nat) | Acknowledged(conn: nat, id: int)

  /** One turn of the worker: when it woke, what had happened, and when it came to send. */
  datatype Turn = Turn(woke: int, events: seq<Event>, sends: int)

  predicate Ok<C>(p: Plan<C>)
  {
    Distinct(p.ring) && forall c | c in p.ring :: c in p.st && p.st[c].joined
  }

  predicate Known(events: seq<Event>, n: nat) { forall e | e in events :: e.conn < n }

  /** The clock never runs backwards over the turns. */
  predicate Forward(turns: seq<Turn>, clock: int)
  {
    turns == [] || (clock <= turns[0].woke <= turns[0].sends && Forward(turns[1..], turns[0].sends))
  }

  // ---- events ----

  /** The first acknowledgement puts a connection into the ring, any later one renames it. */
  function Acknowledge<C>(p: Plan<C>, c: C, id: int, now: int, interval: int): (r: Plan<C>)
    requires Ok(p) && c in p.st
    ensures Ok(r) && r.st.Keys == p.st.Keys
  {
    var s := p.st[c];
    if s.joined then p.(st := p.st[c := s.(id := id)])
    else Plan(p.ring + [c], p.st[c := s.(id := id, joined := true, joinedAt := now, due := now + interval)])
  }

  /** A dead connection has no events. */
  function After<C>(p: Plan<C>, c: C, e: Event, now: int, interval: int): (r: Plan<C>)
    requires Ok(p) && c in p.st
    ensures Ok(r) && r.st.Keys == p.st.Keys
  {
    if p.st[c].dead then p
    else match e
      case Failed(_) => p.(st := p.st[c := p.st[c].(dead := true)])
      case Acknowledged(_, id) => Acknowledge(p, c, id, now, interval)
  }

  function AfterAll<C>(p: Plan<C>, conns: seq<C>, events: seq<Event>, now: int, interval: int): (r: Plan<C>)
    requires Ok(p) && (forall c | c in conns :: c in p.st) && Known(events, |conns|)
    ensures Ok(r) && r.st.Keys == p.st.Keys
  {
    if events == [] then p
    else
      var e := events[|events| - 1];
      var q := AfterAll(p, conns, events[..|events| - 1], now, interval);
      After(q, conns[e.conn], e, now, interval)
  }

  // ---- a send pass ----

  /** The head is dropped if it is dead; else it sends and goes to the back. */
  function Fire<C>(p: Plan<C>, now: int, interval: int): (r: Plan<C>)
    requires Ok(p) && p.ring != []
    ensures Ok(r) && r.st.Keys == p.st.Keys
  {
    var c := p.ring[0];
    var s := p.st[c];
    if s.dead then p.(ring := p.ring[1..])
    else
      Turned(p.ring);
      Plan(p.ring[1..] + [c], p.st[c := s.(due := Advance(s.due, now, interval), times := s.times + [now])])
  }

  lemma Turned<C>(q: seq<C>)
    requires q != [] && Distinct(q)
    ensures Distinct(q[1..] + [q[0]]) && forall c :: c in q[1..] + [q[0]] <==> c in q
  {
    assert q == [q[0]] + q[1..];
  }

  function Work<C>(p: Plan<C>, now: int, interval: int): (w: seq<nat>)
    requires Ok(p)
    ensures |w| == |p.ring|
  {
    seq(|p.ring|, i requires 0 <= i < |p.ring| =>
      var s := p.st[p.ring[i]]; if s.dead then 1 else Fires(now - s.due, interval))
  }

  lemma FireWorks<C>(p: Plan<C>, now: int, interval: int)
    requires Ok(p) && interval > 0 && p.ring != [] && p.st[p.ring[0]].due <= now
    ensures Sum(Work(Fire(p, now, interval), now, interval)) < Sum(Work(p, now, interval))
  {
    hide Fires, Advance, Sum;
    var w, r := Work(p, now, interval), Fire(p, now, interval);
    var s := p.st[p.ring[0]];
    SumPop(w);
    if s.dead {
      assert Work(r, now, interval) == w[1..];
    } else {
      var f := Fires(now - Advance(s.due, now, interval), interval);
      AdvanceFires(s.due, now, interval);
      SumPush(w[1..], f);
      assert forall i | 1 <= i < |p.ring| :: p.ring[i] != p.ring[0];
      assert Work(r, now, interval) == w[1..] + [f];
    }
  }

  /** The first head in the future, dead or alive, ends the pass. */
  function Pass<C>(p: Plan<C>, now: int, interval: int): (r: Plan<C>)
    requires Ok(p) && interval > 0
    ensures Ok(r) && r.st.Keys == p.st.Keys
    decreases Sum(Work(p, now, interval))
  {
    if p.ring == [] || p.st[p.ring[0]].due > now then p
    else
      FireWorks(p, now, interval);
      Pass(Fire(p, now, interval), now, interval)
  }

  lemma PassFire<C>(p: Plan<C>, now: int, interval: int)
    requires Ok(p) && interval > 0 && p.ring != [] && p.st[p.ring[0]].due <= now
    ensures Pass(p, now, interval) == Pass(Fire(p, now, interval), now, interval)
  {
    hide Sum, Work;
  }

  function Dues<C>(p: Plan<C>): (ns: seq<int>)
    requires Ok(p)
    ensures |ns| == |p.ring|
  {
    seq(|p.ring|, i requires 0 <= i < |p.ring| => p.st[p.ring[i]].due)
  }

  /** With nobody in the ring dead, a pass over the ring is one over its deadlines, so when it stays
      sorted is what the ring's order says. */
  lemma {:induction false} PassAlive<C>(p: Plan<C>, now: int, interval: int)
    requires Ok(p) && interval > 0 && forall c | c in p.ring :: !p.st[c].dead
    ensures Dues(Pass(p, now, interval)) == R.Pass(Dues(p), now, interval)
    decreases Sum(Work(p, now, interval))
  {
    hide Sum, Work, R.Work;
    if p.ring != [] && p.st[p.ring[0]].due <= now {
      var r := Fire(p, now, interval);
      FireWorks(p, now, interval);
      R.PassFire(Dues(p), now, interval);
      assert Dues(r) == R.Fire(Dues(p), now, interval);
      PassAlive(r, now, interval);
    }
  }

  /** Any turns: the events of each, and then its send pass. */
  function Run<C>(p: Plan<C>, conns: seq<C>, turns: seq<Turn>, interval: int): (r: Plan<C>)
    requires Ok(p) && interval > 0 && (forall c | c in conns :: c in p.st)
    requires forall t | t in turns :: Known(t.events, |conns|)
    ensures Ok(r) && r.st.Keys == p.st.Keys
  {
    if turns == [] then p
    else
      var t := turns[|turns| - 1];
      var q := Run(p, conns, turns[..|turns| - 1], interval);
      Pass(AfterAll(q, conns, t.events, t.woke, interval), t.sends, interval)
  }

  // ---- who is dead, and who has joined ----

  function AllEvents(turns: seq<Turn>): seq<Event>
  {
    if turns == [] then [] else AllEvents(turns[..|turns| - 1]) + turns[|turns| - 1].events
  }

  predicate IsAck(e: Event, i: nat) { e.Acknowledged? && e.conn == i }

  /** An acknowledgement reached connection `i` before it failed. */
  ghost predicate AckedAlive(es: seq<Event>, i: nat)
  {
    exists k | 0 <= k < |es| :: IsAck(es[k], i) && Failed(i) !in es[..k]
  }

  /** The two flags of connection `i` are what its events say. */
  ghost predicate FlagsFollow(s: Status, t: Status, es: seq<Event>, i: nat)
  {
    && (t.dead <==> s.dead || Failed(i) in es)
    && (t.joined <==> s.joined || (!s.dead && AckedAlive(es, i)))
  }

  lemma FlagsMore(s: Status, es: seq<Event>, e: Event, i: nat)
    ensures Failed(i) in es + [e] <==> Failed(i) in es || e == Failed(i)
    ensures AckedAlive(es + [e], i) <==> AckedAlive(es, i) || (IsAck(e, i) && Failed(i) !in es)
  {
    var fs := es + [e];
    assert fs[..|es|] == es && fs[|es|] == e;
    forall k | 0 <= k < |es| ensures fs[k] == es[k] && fs[..k] == es[..k] { }
    if AckedAlive(es, i) {
      var k :| 0 <= k < |es| && IsAck(es[k], i) && Failed(i) !in es[..k];
      assert IsAck(fs[k], i);
    }
    if IsAck(e, i) && Failed(i) !in es { assert IsAck(fs[|es|], i); }
  }

  lemma {:induction false} EventsFlag<C>(
    s: Status, p: Plan<C>, conns: seq<C>, before: seq<Event>, events: seq<Event>, now: int, interval: int, i: nat)
    requires Ok(p) && (forall c | c in conns :: c in p.st) && Known(events, |conns|) && Distinct(conns) && i < |conns|
    requires FlagsFollow(s, p.st[conns[i]], before, i)
    ensures FlagsFollow(s, AfterAll(p, conns, events, now, interval).st[conns[i]], before + events, i)
  {
    if events == [] {
      assert before + [] == before;
    } else {
      var m := |events| - 1;
      EventsFlag(s, p, conns, before, events[..m], now, interval, i);
      FlagsMore(s, before + events[..m], events[m], i);
      assert before + events == before + events[..m] + [events[m]];
      assert conns[events[m].conn] == conns[i] <==> events[m].conn == i;
    }
  }

  /** Send passes change neither flag. */
  lemma {:induction false} PassFlags<C>(p: Plan<C>, now: int, interval: int, c: C)
    requires Ok(p) && interval > 0 && c in p.st
    ensures Pass(p, now, interval).st[c].dead == p.st[c].dead && Pass(p, now, interval).st[c].joined == p.st[c].joined
    decreases Sum(Work(p, now, interval))
  {
    hide Sum, Work;
    if p.ring != [] && p.st[p.ring[0]].due <= now {
      FireWorks(p, now, interval);
      PassFlags(Fire(p, now, interval), now, interval, c);
    }
  }

  /** After any turns: dead is who was or failed; joined is who was or had an acknowledgement before
      it failed. */
  lemma {:induction false} RunFlags<C>(p: Plan<C>, conns: seq<C>, turns: seq<Turn>, interval: int, i: nat)
    requires Ok(p) && interval > 0 && (forall c | c in conns :: c in p.st) && Distinct(conns) && i < |conns|
    requires forall t | t in turns :: Known(t.events, |conns|)
    ensures FlagsFollow(p.st[conns[i]], Run(p, conns, turns, interval).st[conns[i]], AllEvents(turns), i)
  {
    if turns != [] {
      hide FlagsFollow, Pass, AfterAll;
      var m := |turns| - 1;
      var t, q := turns[m], Run(p, conns, turns[..m], interval);
      RunFlags(p, conns, turns[..m], interval, i);
      EventsFlag(p.st[conns[i]], q, conns, AllEvents(turns[..m]), t.events, t.woke, interval, i);
      var r := AfterAll(q, conns, t.events, t.woke, interval);
      PassFlags(r, t.sends, interval, conns[i]);
      FlagsOnly(p.st[conns[i]], r.st[conns[i]], Pass(r, t.sends, interval).st[conns[i]], AllEvents(turns), i);
    }
  }

  lemma FlagsOnly(s: Status, t: Status, u: Status, es: seq<Event>, i: nat)
    requires FlagsFollow(s, t, es, i) && t.dead == u.dead && t.joined == u.joined
    ensures FlagsFollow(s, u, es, i)
  {
  }
}
