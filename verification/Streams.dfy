/** What an epoll worker (servers/go-epoll) makes of each connection over a whole run: an open one is
    what the frames of its own byte stream say, whatever else happened, and one at its end is closed. */
module Streams {
  import opened Wire
  import opened Framing
  import opened Lists
  import opened Sequences
  import opened Events
  import P = Peers
  import O = Outbound
  import I = Inbound

  /** What a connection has said about itself. */
  datatype Said = Said(place: P.Place, lastSeq: int, vx: int, vy: int)

  const NOTHING := Said(P.Nowhere, 0, 0, 0)

  function SaidBy(p: P.Peer): Said { Said(p.place, p.lastSeq, p.vx, p.vy) }

  function Heard(said: Said, payload: Bytes): Said
  {
    if P.IsJoin(payload) then said.(place := P.In(Get32(payload, 1)))
    else if P.IsMove(payload) then
      Said(said.place, Get32(payload, 1), AsI16(Get16(payload, 5)), AsI16(Get16(payload, 7)))
    else said
  }

  function HeardAll(said: Said, payloads: seq<Bytes>): Said
  {
    if payloads == [] then said else Heard(HeardAll(said, payloads[..|payloads| - 1]), payloads[|payloads| - 1])
  }

  lemma {:induction false} HeardMore(said: Said, one: seq<Bytes>, two: seq<Bytes>)
    ensures HeardAll(said, one + two) == HeardAll(HeardAll(said, one), two)
    ensures JoinsIn(one + two) == JoinsIn(one) + JoinsIn(two)
  {
    hide Heard, P.IsJoin;
    if two == [] {
      assert one + two == one;
    } else {
      var m := |two| - 1;
      HeardMore(said, one, two[..m]);
      assert (one + two)[..|one| + m] == one + two[..m];
    }
  }

  // ---- one event ----

  /** Nobody vanishes, a closed connection stays closed, and an open one is where it was. */
  predicate KeptOne<C>(s: State<C>, t: State<C>, c: C)
    requires c in s.peers
  {
    c in t.peers && (!t.peers[c].o.closed ==> !s.peers[c].o.closed && SaidBy(t.peers[c]) == SaidBy(s.peers[c]))
  }

  predicate Kept<C>(s: State<C>, t: State<C>)
  {
    forall c | c in s.peers :: KeptOne(s, t, c)
  }

  lemma KeptSelf<C>(s: State<C>)
    ensures Kept(s, s)
  {
  }

  lemma KeptOn<C>(s: State<C>, t: State<C>, u: State<C>)
    requires Kept(s, t) && Kept(t, u)
    ensures Kept(s, u)
  {
    forall c | c in s.peers ensures KeptOne(s, u, c) { assert KeptOne(s, t, c) && KeptOne(t, u, c); }
  }

  lemma OfferedKept<C>(s: State<C>, c: C, frame: Bytes)
    requires Sane(s) && c in s.peers
    ensures Kept(s, Offered(s, c, frame))
  {
    hide O.Enqueue;
    OfferFollows(s.peers[c], frame);
  }

  lemma HungKept<C>(s: State<C>, c: C)
    requires Sane(s) && c in s.peers
    ensures Kept(s, Hung(s, c)) && Hung(s, c).peers[c].o.closed
  {
  }

  lemma WritableKept<C>(s: State<C>, c: C)
    requires Sane(s) && c in s.peers
    ensures Kept(s, Lists.Writable(s, c))
  {
    hide O.Flush;
  }

  lemma {:induction false} WalkedKept<C>(s: State<C>, k: P.Place, i: nat, n: nat, frame: Bytes)
    requires Sane(s) && k in s.rooms && n <= |s.rooms[k].slots|
    ensures Kept(s, Walked(s, k, i, n, frame))
    decreases n - i
  {
    hide Sane, KeptOne, Offered, Walked;
    if i >= n {
      WalkedPast(s, k, i, n, frame);
      KeptSelf(s);
    } else {
      WalkedStep(s, k, i, n, frame);
      var t := Offered(s, s.rooms[k].slots[i], frame);
      OfferedKept(s, s.rooms[k].slots[i], frame);
      WalkedKept(t, k, i + 1, n, frame);
      KeptOn(s, t, Walked(s, k, i, n, frame));
    }
  }

  lemma {:induction false} MovedKept<C>(s: State<C>, k: P.Place, i: nat, n: nat, es: seq<Entry>)
    requires Sane(s) && k in s.rooms && n <= |s.rooms[k].slots|
    ensures Kept(s, Lists.Moved(s, k, i, n, es).0)
    decreases n - i
  {
    if i < n {
      hide Sane;
      MovedStep(s, k, i, n, es);
      var c := s.rooms[k].slots[i];
      var p := P.Advance(s.peers[c]);
      var t := s.(peers := s.peers[c := p]);
      MovedKept(t, k, i + 1, n, es + [P.Shown(p)]);
      KeptOn(s, t, Lists.Moved(s, k, i, n, es).0);
    }
  }

  lemma {:induction false} TickedKept<C>(s: State<C>, order: seq<P.Place>)
    requires Sane(s) && forall k | k in order :: k in s.rooms
    ensures Kept(s, TickedAll(s, order))
  {
    hide Sane, Lists.Moved, Walked, Frame, SnapshotPayload;
    if order != [] {
      var m := |order| - 1;
      TickedKept(s, order[..m]);
      var t, k := TickedAll(s, order[..m]), order[m];
      if t.rooms[k].n > 0 {
        SaneRoom(t, k);
        MovedKept(WithTick(t, k, NextTick(t, k)), k, 0, t.rooms[k].n, []);
        WalkedKept(Built(t, k).0, k, 0, t.rooms[k].n, Frame(SnapshotPayload(NextTick(t, k), Built(t, k).1)));
      }
    }
  }

  /** `c` has heard these payloads, if it is still open; the others are as they were. */
  predicate Told<C>(s: State<C>, t: State<C>, c: C, payloads: seq<Bytes>)
    requires c in s.peers
  {
    && (forall d | d in s.peers && d != c :: KeptOne(s, t, d))
    && c in t.peers
    && (!t.peers[c].o.closed ==>
          !s.peers[c].o.closed && SaidBy(t.peers[c]) == HeardAll(SaidBy(s.peers[c]), payloads))
  }

  lemma HandledTold<C>(s: State<C>, c: C, payload: Bytes, pid: int)
    requires Sane(s) && c in s.peers
    ensures var t := Handled(s, c, payload, pid);
            && (forall d | d in s.peers && d != c :: KeptOne(s, t, d))
            && c in t.peers
            && (!t.peers[c].o.closed ==>
                  !s.peers[c].o.closed && SaidBy(t.peers[c]) == Heard(SaidBy(s.peers[c]), payload))
  {
    hide Offered, O.Enqueue, Frame, JoinedPayload;
    if P.IsJoin(payload) && !s.peers[c].o.closed {
      var room := Get32(payload, 1);
      OfferedKept(Appended(s, c, P.In(room), pid), c, Frame(JoinedPayload(pid, room)));
    }
  }

  lemma {:induction false} DispatchedTold<C>(s: State<C>, c: C, payloads: seq<Bytes>, pids: seq<int>)
    requires Sane(s) && c in s.peers
    ensures Told(s, Dispatched(s, c, payloads, pids), c, payloads)
  {
    hide Sane, Handled, Heard;
    if payloads != [] {
      var m := |payloads| - 1;
      DispatchedTold(s, c, payloads[..m], pids);
      HandledTold(Dispatched(s, c, payloads[..m], pids), c, payloads[m], PidAt(pids, JoinsIn(payloads[..m])));
    }
  }

  // ---- one connection's stream ----

  /** What was read so far, and the kernel's answers to come. */
  datatype Stream = Stream(bytes: Bytes, input: seq<I.ReadResult>)

  function AcceptsIn(es: seq<Event>): nat
  {
    if es == [] then 0 else AcceptsIn(es[..|es| - 1]) + if es[|es| - 1].Accepting? then 1 else 0
  }

  /** What one more event does to the stream of connection `i`, one that has been accepted. */
  function StreamAfter(was: Stream, e: Event, i: nat): Stream
  {
    if e.Readable? && e.conn == i then
      var n := I.Used(was.input);
      Stream(was.bytes + I.DataIn(was.input[..n]), was.input[n..])
    else was
  }

  /** The bytes that the readiness events of connection `i` take from its socket. */
  function StreamOf(es: seq<Event>, i: nat): Stream
  {
    if es == [] then Stream([], [])
    else
      var m := |es| - 1;
      var was := StreamOf(es[..m], i);
      if es[m].Accepting? && AcceptsIn(es[..m]) == i then Stream([], es[m].input)
      else if i < AcceptsIn(es[..m]) then StreamAfter(was, es[m], i)
      else was
  }

  /** An open connection is what the whole frames of its stream make of it. */
  predicate Spoken<C>(w: World<C>, c: C, stream: Stream)
    requires c in w.s.peers && c in w.bufs && c in w.joins
  {
    var i := Feed([], stream.bytes, NEVER);
    !w.s.peers[c].o.closed ==>
      && !i.closed && w.bufs[c] == Buffer(i.rest, stream.input)
      && SaidBy(w.s.peers[c]) == HeardAll(NOTHING, i.log) && w.joins[c] == JoinsIn(i.log)
  }

  /** A parse that rejected nothing is a parse that cannot. */
  lemma {:induction false} FeedOpen(log: seq<Bytes>, b: Bytes, kills: Verdict)
    requires !Feed(log, b, kills).closed
    ensures Feed(log, b, NEVER) == Feed(log, b, kills)
    decreases |b|
  {
    if |b| >= 4 && |b| >= 4 + FrameLen(b) && !BadLen(FrameLen(b)) {
      FeedOpen(log + [b[4..4 + FrameLen(b)]], b[4 + FrameLen(b)..], kills);
    }
  }

  /** Nothing depends on what was dispatched before. */
  lemma {:induction false} FeedAfter(log: seq<Bytes>, b: Bytes)
    ensures var i := Feed([], b, NEVER); Feed(log, b, NEVER) == Inbox(log + i.log, i.closed, i.rest)
    decreases |b|
  {
    if |b| >= 4 && |b| >= 4 + FrameLen(b) && !BadLen(FrameLen(b)) {
      var p, rest := b[4..4 + FrameLen(b)], b[4 + FrameLen(b)..];
      FeedAfter(log + [p], rest);
      FeedAfter([p], rest);
      assert [] + [p] == [p];
      assert log + [p] + Feed([], rest, NEVER).log == log + ([p] + Feed([], rest, NEVER).log);
    }
  }

  lemma ReadSpoken<C>(w: World<C>, c: C, pids: seq<int>, was: Stream)
    requires Sane(w.s) && c in w.s.peers && c in w.bufs && c in w.joins && !w.s.peers[c].o.closed && Spoken(w, c, was)
    ensures var r, n := Read(w, c, pids), I.Used(was.input);
            && (forall e | e in w.s.peers && e != c :: KeptOne(w.s, r.s, e))
            && (c in r.s.peers && c in r.bufs && c in r.joins)
            && Spoken(r, c, Stream(was.bytes + I.DataIn(was.input[..n]), was.input[n..]))
            && (I.LosesIt(was.input) ==> r.s.peers[c].o.closed)
  {
    hide Sane, Feed, Dispatched, HeardAll, JoinsIn, Rejects, I.DrainFrom, I.Used, I.DataIn, I.LosesIt;
    var d, n := I.Drain(was.input), I.Used(was.input);
    I.DrainReads([], was.input);
    assert d == I.Drained(I.DataIn(was.input[..n]), I.LosesIt(was.input), was.input[n..]);
    if d.lost {
      HungKept(w.s, c);
    } else {
      var first, i := Feed([], was.bytes, NEVER), Parsed(w, c, pids);
      DispatchedTold(w.s, c, i.log, pids);
      if i.closed {
        HungKept(Dispatched(w.s, c, i.log, pids), c);
      } else {
        FeedOpen([], first.rest + d.data, Rejects(w.s, c, pids));
        FeedSplit([], was.bytes, d.data, NEVER);
        FeedAfter(first.log, first.rest + d.data);
        HeardMore(NOTHING, first.log, i.log);
      }
    }
  }

  // ---- runs ----

  /** The event says that connection `i` is at its end: a hangup, or reads that meet the end of file or an
      error. */
  predicate Ends(e: Event, i: nat, was: Stream)
  {
    e == Hangup(i) || (e.Readable? && e.conn == i && I.LosesIt(was.input))
  }

  lemma StepSpoken<C>(w: World<C>, e: Event, names: seq<C>, order: seq<P.Place>, i: nat, was: Stream)
    requires Ok(w, names) && (e.Accepting? ==> w.n < |names|) && (e.Timer? ==> Enumerates(order, w.s))
    requires Distinct(names) && i < w.n && Spoken(w, names[i], was)
    ensures var r, c := Step(w, e, names, order), names[i];
            && c in r.s.peers && (w.s.peers[c].o.closed || Ends(e, i, was) ==> r.s.peers[c].o.closed)
            && Spoken(r, c, StreamAfter(was, e, i))
  {
    hide Sane, Feed, HeardAll, JoinsIn, I.Drain, I.LosesIt, I.Used, I.DataIn, Read, TickedAll, Lists.Writable, Hung, Ok;
    OkMeans(w, names);
    OkAt(w, names, i);
    var c := names[i];
    match e
    case Accepting(_, _) =>
    case Timer => TickedKept(w.s, order);
    case Readable(j, pids) =>
      if IsOpen(w, names, j) {
        if j == i { ReadSpoken(w, c, pids, was); } else { ReadOther(w, names[j], pids, c); }
      }
    case Writable(j) => if IsOpen(w, names, j) { WritableKept(w.s, names[j]); }
    case Hangup(j) => if IsOpen(w, names, j) { HungKept(w.s, names[j]); }
  }

  lemma ReadOther<C>(w: World<C>, d: C, pids: seq<int>, c: C)
    requires Sane(w.s) && d in w.s.peers && d in w.bufs && d in w.joins && c != d
    requires c in w.s.peers && c in w.bufs && c in w.joins
    ensures var r := Read(w, d, pids);
            && c in r.bufs && c in r.joins && r.bufs[c] == w.bufs[c] && r.joins[c] == w.joins[c] && KeptOne(w.s, r.s, c)
  {
    hide Sane, Feed, Dispatched, HeardAll, JoinsIn, I.Drain, Rejects;
    DispatchedTold(w.s, d, Parsed(w, d, pids).log, pids);
    HungKept(w.s, d);
    HungKept(Dispatched(w.s, d, Parsed(w, d, pids).log, pids), d);
  }

  lemma NewSpoken<C>(w: World<C>, e: Event, names: seq<C>, order: seq<P.Place>)
    requires Ok(w, names) && Distinct(names) && e.Accepting? && w.n < |names|
    ensures Spoken(Step(w, e, names, order), names[w.n], Stream([], e.input))
  {
    hide Sane;
  }

  predicate Ended(es: seq<Event>, i: nat)
  {
    exists m | 0 <= m < |es| :: Ends(es[m], i, StreamOf(es[..m], i)) && i < AcceptsIn(es[..m])
  }

  /** In every run: the connections are those accepted; one that hung up, or whose reads met the end of its
      stream or an error, is closed; and one that is open is
      in the room and has the velocity and sequence number that the whole frames of its own byte stream
      give it, has joined as often as they say, and buffers what is left of it. Neither how its bytes were
      cut into reads nor anything that happened to others, to its queue or at a tick makes a difference. */
  lemma {:induction false} OpenIsSpoken<C>(es: seq<Event>, names: seq<C>, orders: seq<seq<P.Place>>, i: nat)
    requires Distinct(names) && Chosen(es, names, orders)
    ensures Run(es, names, orders).n == AcceptsIn(es)
    ensures i < AcceptsIn(es) ==>
              var w := Run(es, names, orders);
              && Spoken(w, names[i], StreamOf(es, i))
              && (Ended(es, i) ==> w.s.peers[names[i]].o.closed)
    decreases |es|
  {
    hide Sane, Spoken, Enumerates;
    if es != [] {
      var m := |es| - 1;
      OpenIsSpoken(es[..m], names, orders[..m], i);
      var w := Run(es[..m], names, orders[..m]);
      assert Run(es, names, orders).n == AcceptsIn(es) by { StepCount(w, es[m], names, orders[m]); }
      if i < w.n {
        StepSpoken(w, es[m], names, orders[m], i, StreamOf(es[..m], i));
        EndedEarlier(es, i);
      } else if i == w.n && es[m].Accepting? {
        NewSpoken(w, es[m], names, orders[m]);
        EndedEarlier(es, i);
      }
    }
  }

  lemma StepCount<C>(w: World<C>, e: Event, names: seq<C>, order: seq<P.Place>)
    requires Ok(w, names) && (e.Accepting? ==> w.n < |names|) && (e.Timer? ==> Enumerates(order, w.s))
    requires Distinct(names)
    ensures Step(w, e, names, order).n == w.n + if e.Accepting? then 1 else 0
  {
    hide Sane, Received, Hung, Lists.Writable, TickedAll;
  }

  lemma EndedEarlier(es: seq<Event>, i: nat)
    requires es != []
    ensures Ended(es, i) <==>
              || Ended(es[..|es| - 1], i)
              || (Ends(es[|es| - 1], i, StreamOf(es[..|es| - 1], i)) && i < AcceptsIn(es[..|es| - 1]))
    ensures i >= AcceptsIn(es[..|es| - 1]) ==> !Ended(es[..|es| - 1], i)
  {
    var front := es[..|es| - 1];
    forall m | 0 <= m <= |front| ensures front[..m] == es[..m] && AcceptsIn(es[..m]) <= AcceptsIn(front) {
      AcceptsGrow(front, m);
    }
  }

  lemma {:induction false} AcceptsGrow(es: seq<Event>, m: nat)
    requires m <= |es|
    ensures AcceptsIn(es[..m]) <= AcceptsIn(es)
  {
    if m < |es| {
      AcceptsGrow(es[..|es| - 1], m);
      assert es[..|es| - 1][..m] == es[..m];
    } else {
      assert es[..m] == es;
    }
  }
}
