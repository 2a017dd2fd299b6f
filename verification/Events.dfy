/** Whole runs of an epoll worker (servers/go-epoll) as a function of what the kernel reports, the
    answers it gives, and the choices of the runtime. */
module Events {
  import opened Wire
  import opened Framing
  import opened Sequences
  import opened Lists
  import P = Peers
  import O = Outbound
  import I = Inbound

  /** Connections are numbered in the order in which they were accepted; `pids` are the player ids
      that the counter shared by all workers gives out during the event. */
  datatype Event =
    | Accepting(script: seq<O.WriteResult>, input: seq<I.ReadResult>)
    | Readable(conn: nat, pids: seq<int>)
    | Writable(conn: nat)
    | Hangup(conn: nat)
    | Timer

  /** The read side of a connection. */
  datatype Buffer = Buffer(rbuf: Bytes, input: seq<I.ReadResult>)

  /** A worker, the read sides of its connections, how often each has joined, and how many there are. */
  datatype World<C> = World(s: State<C>, bufs: map<C, Buffer>, joins: map<C, nat>, n: nat)

  predicate Ok<C>(w: World<C>, names: seq<C>)
  {
    && Sane(w.s) && w.bufs.Keys == w.joins.Keys == w.s.peers.Keys && w.n <= |names|
    && (forall i | 0 <= i < |names| :: names[i] in w.s.peers <==> i < w.n)
    && forall c | c in w.s.peers :: c in names[..w.n]
  }

  /** The kernel reports events of open connections only. */
  predicate IsOpen<C>(w: World<C>, names: seq<C>, i: nat)
  {
    i < |names| && names[i] in w.s.peers && !w.s.peers[names[i]].o.closed
  }

  /** A range over the map of rooms: every room once. */
  predicate Enumerates<C>(order: seq<P.Place>, s: State<C>)
  {
    Distinct(order) && (forall k | k in order :: k in s.rooms) && (forall k | k in s.rooms :: k in order)
  }

  /** What a readiness event finds: the bytes read so far, dispatched frame by frame. */
  function Parsed<C>(w: World<C>, c: C, pids: seq<int>): Inbox
    requires c in w.bufs
  {
    Feed([], w.bufs[c].rbuf + I.Drain(w.bufs[c].input).data, Rejects(w.s, c, pids))
  }

  function Read<C>(w: World<C>, c: C, pids: seq<int>): (r: World<C>)
    requires Sane(w.s) && c in w.s.peers && c in w.bufs && c in w.joins
  {
    var d := I.Drain(w.bufs[c].input);
    var got := w.bufs[c].rbuf + d.data;
    if d.lost then w.(s := Hung(w.s, c), bufs := w.bufs[c := Buffer(got, d.later)])
    else
      var i := Parsed(w, c, pids);
      w.(s := Received(w.s, c, i, pids),
         bufs := w.bufs[c := Buffer(if i.closed then got else i.rest, d.later)],
         joins := w.joins[c := w.joins[c] + JoinsIn(i.log)])
  }

  function Happened<C>(w: World<C>, e: Event, names: seq<C>, order: seq<P.Place>): World<C>
    requires Ok(w, names) && (e.Accepting? ==> w.n < |names|) && (e.Timer? ==> Enumerates(order, w.s))
  {
    match e
    case Accepting(script, input) =>
      var c := names[w.n];
      World(Accepted(w.s, c, script), w.bufs[c := Buffer([], input)], w.joins[c := 0], w.n + 1)
    case Timer => w.(s := TickedAll(w.s, order))
    case Readable(i, pids) => if IsOpen(w, names, i) then Read(w, names[i], pids) else w
    case Writable(i) => if IsOpen(w, names, i) then w.(s := Lists.Writable(w.s, names[i])) else w
    case Hangup(i) => if IsOpen(w, names, i) then w.(s := Hung(w.s, names[i])) else w
  }

  function Step<C>(w: World<C>, e: Event, names: seq<C>, order: seq<P.Place>): (r: World<C>)
    requires Ok(w, names) && (e.Accepting? ==> w.n < |names|) && (e.Timer? ==> Enumerates(order, w.s))
    requires Distinct(names)
    ensures Ok(r, names)
  {
    HappenedOk(w, e, names, order);
    Happened(w, e, names, order)
  }

  lemma HappenedOk<C>(w: World<C>, e: Event, names: seq<C>, order: seq<P.Place>)
    requires Ok(w, names) && (e.Accepting? ==> w.n < |names|) && (e.Timer? ==> Enumerates(order, w.s))
    requires Distinct(names)
    ensures Ok(Happened(w, e, names, order), names)
  {
    hide Ok, Sane, TickedAll, Read, Lists.Writable, Hung, Accepted;
    OkMeans(w, names);
    var r := Happened(w, e, names, order);
    match e
    case Accepting(script, _) => AcceptedKeys(w.s, names[w.n], script); OkMore(w, r, names);
    case Readable(i, pids) => if IsOpen(w, names, i) { ReadKeys(w, names[i], pids); OkSame(w, r, names); }
    case _ => OkSame(w, r, names);
  }

  lemma OkMeans<C>(w: World<C>, names: seq<C>)
    requires Ok(w, names)
    ensures Sane(w.s) && w.bufs.Keys == w.joins.Keys == w.s.peers.Keys && w.n <= |names|
    ensures w.n < |names| ==> names[w.n] !in w.s.peers
  {
    hide Sane;
  }

  lemma OkAt<C>(w: World<C>, names: seq<C>, i: nat)
    requires Ok(w, names) && i < w.n
    ensures i < |names| && names[i] in w.s.peers
  {
    hide Sane;
  }

  lemma OkSame<C>(w: World<C>, r: World<C>, names: seq<C>)
    requires Ok(w, names) && Sane(r.s) && r.n == w.n
    requires r.s.peers.Keys == w.s.peers.Keys && r.bufs.Keys == w.bufs.Keys && r.joins.Keys == w.joins.Keys
    ensures Ok(r, names)
  {
    hide Sane;
    forall c | c in r.s.peers ensures c in names[..r.n] { assert c in w.s.peers; }
    forall i | 0 <= i < |names| ensures names[i] in r.s.peers <==> i < r.n {
      assert names[i] in w.s.peers <==> i < w.n;
    }
  }

  lemma OkMore<C>(w: World<C>, r: World<C>, names: seq<C>)
    requires Ok(w, names) && Sane(r.s) && w.n < |names| && r.n == w.n + 1 && Distinct(names)
    requires r.s.peers.Keys == w.s.peers.Keys + {names[w.n]}
    requires r.bufs.Keys == r.joins.Keys == r.s.peers.Keys
    ensures Ok(r, names)
  {
    hide Sane;
    assert names[..r.n] == names[..w.n] + [names[w.n]];
  }

  lemma AcceptedKeys<C>(s: State<C>, c: C, script: seq<O.WriteResult>)
    requires Sane(s) && c !in s.peers
    ensures Sane(Accepted(s, c, script)) && Accepted(s, c, script).peers.Keys == s.peers.Keys + {c}
  {
    hide Sane;
  }

  lemma ReadKeys<C>(w: World<C>, c: C, pids: seq<int>)
    requires Sane(w.s) && c in w.s.peers && c in w.bufs && c in w.joins
    ensures var r := Read(w, c, pids);
            && Sane(r.s) && r.n == w.n && r.s.peers.Keys == w.s.peers.Keys
            && r.bufs.Keys == w.bufs.Keys && r.joins.Keys == w.joins.Keys
  {
    hide Sane, Received, Hung, Feed, I.Drain, Rejects, JoinsIn;
  }

  /** The choices of the runtime: at each timer event, an order of the rooms. */
  predicate Chosen<C(==)>(es: seq<Event>, names: seq<C>, orders: seq<seq<P.Place>>)
    requires Distinct(names)
    decreases |es|, 0
  {
    |orders| == |es| &&
    (es == [] || (
       var m := |es| - 1;
       Chosen(es[..m], names, orders[..m]) &&
       var w := Run(es[..m], names, orders[..m]);
       (es[m].Accepting? ==> w.n < |names|) && (es[m].Timer? ==> Enumerates(orders[m], w.s))))
  }

  /** What becomes of a new worker. */
  function Run<C(==)>(es: seq<Event>, names: seq<C>, orders: seq<seq<P.Place>>): (w: World<C>)
    requires Distinct(names) && Chosen(es, names, orders)
    ensures Ok(w, names)
    decreases |es|, 1
  {
    if es == [] then World(State(map[], map[], map[]), map[], map[], 0)
    else
      var m := |es| - 1;
      Step(Run(es[..m], names, orders[..m]), es[m], names, orders[m])
  }

  /** Only the names given out so far matter. */
  lemma {:induction false} MoreNames<C>(es: seq<Event>, names: seq<C>, more: seq<C>, orders: seq<seq<P.Place>>)
    requires Distinct(names) && Distinct(more) && names <= more && Chosen(es, names, orders)
    ensures Chosen(es, more, orders) && Run(es, more, orders) == Run(es, names, orders)
    decreases |es|
  {
    hide Step, Enumerates;
    if es != [] {
      var m := |es| - 1;
      MoreNames(es[..m], names, more, orders[..m]);
      StepNames(Run(es[..m], names, orders[..m]), es[m], names, more, orders[m]);
    }
  }

  lemma StepNames<C>(w: World<C>, e: Event, names: seq<C>, more: seq<C>, order: seq<P.Place>)
    requires Distinct(names) && Distinct(more) && names <= more && Ok(w, names) && Ok(w, more)
    requires (e.Accepting? ==> w.n < |names|) && (e.Timer? ==> Enumerates(order, w.s))
    ensures Step(w, e, more, order) == Step(w, e, names, order)
  {
    hide Sane, Ok, Distinct, IsOpen, TickedAll, Read, Lists.Writable, Hung, Accepted;
    if e.Readable? || e.Writable? || e.Hangup? { OpenNames(w, names, more, e.conn); }
    OkMeans(w, names);
  }

  lemma OpenNames<C>(w: World<C>, names: seq<C>, more: seq<C>, i: nat)
    requires names <= more && Ok(w, names) && Ok(w, more)
    ensures IsOpen(w, more, i) == IsOpen(w, names, i) && (IsOpen(w, names, i) ==> i < |names| && more[i] == names[i])
  {
    hide Sane;
  }

  /** One more event. */
  lemma RunMore<C>(es: seq<Event>, e: Event, names: seq<C>, orders: seq<seq<P.Place>>, order: seq<P.Place>)
    requires Distinct(names) && Chosen(es, names, orders)
    requires e.Accepting? ==> Run(es, names, orders).n < |names|
    requires e.Timer? ==> Enumerates(order, Run(es, names, orders).s)
    ensures Chosen(es + [e], names, orders + [order])
    ensures Run(es + [e], names, orders + [order]) == Step(Run(es, names, orders), e, names, order)
  {
    hide Step, Enumerates;
    assert (es + [e])[..|es|] == es && (orders + [order])[..|orders|] == orders;
  }
}
