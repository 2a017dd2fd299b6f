/** The epoll reactor (servers/go-epoll) while no connection joins twice: the member lists are in
    order, and a tick reaches every member once. */
module InOrder {
  import opened Wire
  import opened Lists
  import opened Sequences
  import opened Events
  import P = Peers
  import T = TickWalk
  import J = SecondJoin
  import M = Streams
  import F = Framing

  /** The list of a room holds open connections of this room, each at its index. */
  predicate RoomOk<C>(s: State<C>, k: P.Place)
    requires k in s.rooms
  {
    k.In? && s.rooms[k].n <= |s.rooms[k].slots| &&
    forall i | 0 <= i < s.rooms[k].n ::
      var c := s.rooms[k].slots[i];
      c in s.peers && c in s.midx && !s.peers[c].o.closed && s.peers[c].place == k && s.midx[c] == i
  }

  function ListOf<C>(s: State<C>, k: P.Place): (cs: seq<C>)
    requires k in s.rooms && s.rooms[k].n <= |s.rooms[k].slots|
  {
    s.rooms[k].slots[..s.rooms[k].n]
  }

  /** Every room is in order, and every connection that is in a room is in its list. */
  predicate InOrder<C>(s: State<C>)
  {
    && s.midx.Keys == s.peers.Keys
    && (forall k | k in s.rooms :: RoomOk(s, k))
    && (forall c | c in s.peers && s.peers[c].place.In? ::
          s.peers[c].place in s.rooms && c in ListOf(s, s.peers[c].place))
  }

  lemma RoomDistinct<C>(s: State<C>, k: P.Place)
    requires k in s.rooms && RoomOk(s, k)
    ensures Distinct(ListOf(s, k))
  {
    var cs := ListOf(s, k);
    forall i, j | 0 <= i < j < |cs| ensures cs[i] != cs[j] {
      assert s.midx[s.rooms[k].slots[i]] == i && s.midx[s.rooms[k].slots[j]] == j;
    }
  }

  /** Who has joined at most once is where it says; so if that is everyone, all rooms are in order. */
  lemma OnceInOrder<C>(s: State<C>, joins: map<C, nat>)
    requires Sane(s) && J.AllOk(s, joins) && forall c | c in joins :: joins[c] <= 1
    ensures InOrder(s)
  {
    forall k | k in s.rooms ensures RoomOk(s, k) {
      SaneRoom(s, k);
      forall i | 0 <= i < s.rooms[k].n
        ensures var c := s.rooms[k].slots[i];
                c in s.peers && c in s.midx && !s.peers[c].o.closed && s.peers[c].place == k && s.midx[c] == i
      {
        var c := s.rooms[k].slots[i];
        assert J.Holds(s, J.Slot(k, i), c);
        assert J.SlotsOk(s, c, joins[c]);
      }
    }
    forall c | c in s.peers && s.peers[c].place.In?
      ensures s.peers[c].place in s.rooms && c in ListOf(s, s.peers[c].place)
    {
      SaneConn(s, c);
      assert J.SlotsOk(s, c, joins[c]);
      assert J.Holds(s, J.Home(s, c), c);
      assert ListOf(s, s.peers[c].place)[s.midx[c]] == c;
    }
  }

  /** In any run in which nobody has joined twice: each room lists exactly the open connections that are
      in it, once each, at their indices. */
  lemma RunInOrder<C>(es: seq<Event>, names: seq<C>, orders: seq<seq<P.Place>>)
    requires Distinct(names) && Chosen(es, names, orders)
    requires forall c | c in Run(es, names, orders).joins :: Run(es, names, orders).joins[c] <= 1
    ensures InOrder(Run(es, names, orders).s)
  {
    J.RunAll(es, names, orders);
    OnceInOrder(Run(es, names, orders).s, Run(es, names, orders).joins);
  }

  // ---- single events ----

  function JoinsOf<C>(s: State<C>): map<C, nat>
  {
    map c | c in s.peers :: if s.peers[c].place.In? then 1 else 0
  }

  lemma OrderIsOnce<C>(s: State<C>)
    requires Sane(s) && InOrder(s)
    ensures J.AllOk(s, JoinsOf(s))
  {
    forall c | c in s.peers ensures J.SlotsOk(s, c, JoinsOf(s)[c]) {
      SaneConn(s, c);
      if s.peers[c].place.In? {
        var i :| 0 <= i < |ListOf(s, s.peers[c].place)| && ListOf(s, s.peers[c].place)[i] == c;
        assert J.Holds(s, J.Home(s, c), c);
      } else {
        assert forall p :: J.Holds(s, p, c) ==> RoomOk(s, p.place);
      }
    }
  }

  /** A JOIN keeps the order exactly when the connection was in no room before. */
  lemma JoinKeepsOrder<C>(s: State<C>, c: C, k: P.Place, pid: int)
    requires Sane(s) && InOrder(s) && c in s.peers && !s.peers[c].o.closed && k.In?
    ensures InOrder(Appended(s, c, k, pid)) <==> s.peers[c].place.Nowhere?
  {
    hide Sane, J.AllOk;
    var t := Appended(s, c, k, pid);
    OrderIsOnce(s);
    var p := s.peers[c].place;
    if p.Nowhere? {
      J.AppendAll(s, c, k, pid, JoinsOf(s));
      assert JoinsOf(s)[c := 1] == JoinsOf(t);
      OnceInOrder(t, JoinsOf(t));
    } else {
      var i :| 0 <= i < s.rooms[p].n && s.rooms[p].slots[i] == c;
      assert !RoomOk(t, p) by { assert i < t.rooms[p].n && t.rooms[p].slots[i] == c; }
    }
  }

  /** Whatever else happens to a connection, closing it included, keeps the order. */
  lemma BecomeKeepsOrder<C>(s: State<C>, c: C, q: P.Peer)
    requires Sane(s) && InOrder(s) && c in s.peers && Follows(q, s.peers[c])
    ensures InOrder(Become(s, c, q))
  {
    hide Sane, InOrder, J.AllOk, Become;
    OrderIsOnce(s);
    J.BecomeAll(s, c, q, JoinsOf(s));
    OnceInOrder(Become(s, c, q), JoinsOf(s));
  }

  // ---- a tick ----

  lemma Tail<C>(l: seq<C>, i: nat, n: nat)
    requires i < n <= |l| && Distinct(l[i..n])
    ensures l[i..n] == [l[i]] + l[i + 1..n] && Distinct(l[i + 1..n]) && l[i] !in l[i + 1..n]
  {
    assert l[i + 1..n] == l[i..n][1..];
    assert l[i..n][0] == l[i];
  }

  /** The entries of a list, moved. */
  function Entries<C>(peers: map<C, P.Peer>, cs: seq<C>): (es: seq<Entry>)
    requires forall c | c in cs :: c in peers
    ensures |es| == |cs|
  {
    seq(|cs|, i requires 0 <= i < |cs| => P.Shown(P.Advance(peers[cs[i]])))
  }

  lemma {:induction false} MovedEntries<C>(s: State<C>, k: P.Place, i: nat, n: nat, es: seq<Entry>)
    requires Sane(s) && k in s.rooms && i <= n <= |s.rooms[k].slots| && Distinct(s.rooms[k].slots[i..n])
    requires forall c | c in s.rooms[k].slots[i..n] :: c in s.peers
    ensures Moved(s, k, i, n, es).1 == es + Entries(s.peers, s.rooms[k].slots[i..n])
    decreases n - i
  {
    hide Sane, Moved, P.Advance, P.Shown;
    var l := s.rooms[k].slots;
    if i == n {
      MovedEnd(s, k, n, es);
    } else {
      MovedStep(s, k, i, n, es);
      var p := P.Advance(s.peers[l[i]]);
      var t := s.(peers := s.peers[l[i] := p]);
      Tail(l, i, n);
      MovedEntries(t, k, i + 1, n, es + [P.Shown(p)]);
      assert Entries(t.peers, l[i + 1..n]) == Entries(s.peers, l[i + 1..n]);
      assert Entries(s.peers, [l[i]] + l[i + 1..n]) == [P.Shown(p)] + Entries(s.peers, l[i + 1..n]);
    }
  }

  /** What a room in order sends at its next tick: every member once, moved, in list order. */
  function TickFrame<C>(s: State<C>, k: P.Place): Bytes
    requires k in s.rooms && RoomOk(s, k)
  {
    Frame(SnapshotPayload(NextTick(s, k), Entries(s.peers, ListOf(s, k))))
  }

  /** A tick of a room in order moves each member once and offers it the one frame once, whatever fails on
      the way, and touches nobody else. */
  lemma TickOnce<C>(s: State<C>, k: P.Place, c: C)
    requires Sane(s) && k in s.rooms && RoomOk(s, k) && c in s.peers
    ensures c in Ticked(s, k).peers
    ensures Ticked(s, k).peers[c] ==
              if c in ListOf(s, k) then P.Ticked(s.peers[c], TickFrame(s, k)) else s.peers[c]
  {
    hide Sane, Moved, Ticked, P.Advance, P.Offer, Frame, SnapshotPayload, T.Reached;
    var n, t, cs := s.rooms[k].n, WithTick(s, k, NextTick(s, k)), ListOf(s, k);
    RoomDistinct(s, k);
    assert cs == t.rooms[k].slots[0..n];
    MovedEntries(t, k, 0, n, []);
    assert [] + Entries(s.peers, cs) == Entries(s.peers, cs);
    assert T.FrameOf(s, k) == TickFrame(s, k);
    T.TickTimes(s, k, c);
    CountOnce(cs, c);
    CountOnce(T.Reached(s, k), c);
  }

  lemma {:induction false} CountOnce<C>(cs: seq<C>, c: C)
    requires Distinct(cs)
    ensures T.Count(cs, c) == if c in cs then 1 else 0
  {
    if cs != [] { CountOnce(cs[1..], c); }
  }

  // ---- the timer ----

  /** A tick keeps the order. */
  lemma TickKeepsOrder<C>(s: State<C>, k: P.Place)
    requires Sane(s) && InOrder(s) && k in s.rooms
    ensures InOrder(Ticked(s, k))
  {
    hide Sane, InOrder, Ticked, J.AllOk;
    OrderIsOnce(s);
    J.TickedKeeps(s, k, JoinsOf(s));
    OnceInOrder(Ticked(s, k), JoinsOf(s));
  }

  /** Connections of one room do not touch another room's list. */
  lemma {:induction false} WalkedElsewhere<C>(s: State<C>, k: P.Place, i: nat, n: nat, frame: Bytes, j: P.Place)
    requires Sane(s) && k in s.rooms && i <= n <= |s.rooms[k].slots| && Distinct(s.rooms[k].slots[i..n])
    requires forall c | c in s.rooms[k].slots[i..n] :: c in s.peers && s.peers[c].place == k
    requires j in s.rooms && j != k
    ensures Walked(s, k, i, n, frame).rooms[j] == s.rooms[j]
    decreases n - i
  {
    hide Sane, Walked, P.Offer;
    if i == n {
      WalkedEnd(s, k, n, frame);
    } else {
      WalkedStep(s, k, i, n, frame);
      var l := s.rooms[k].slots;
      var t := T.WalkedOne(s, k, i, n, frame);
      Tail(l, i, n);
      forall m | i < m < n ensures t.rooms[k].slots[m] == l[m] {
        T.OneOverwritten(s, k, i, n, frame, m);
        assert l[i + 1..n][m - i - 1] == l[m];
      }
      assert t.rooms[k].slots[i + 1..n] == l[i + 1..n];
      WalkedElsewhere(t, k, i + 1, n, frame, j);
    }
  }

  lemma TickElsewhere<C>(s: State<C>, k: P.Place, j: P.Place)
    requires Sane(s) && k in s.rooms && RoomOk(s, k) && j in s.rooms && j != k
    ensures Ticked(s, k).rooms[j] == s.rooms[j]
  {
    hide Sane, Walked, Moved, Frame, SnapshotPayload;
    var n := s.rooms[k].n;
    if n > 0 {
      var t, u := WithTick(s, k, NextTick(s, k)), Built(s, k).0;
      RoomDistinct(s, k);
      assert ListOf(s, k) == u.rooms[k].slots[0..n];
      J.MovedSame(t, k, 0, n, []);
      var frame := Frame(SnapshotPayload(NextTick(s, k), Built(s, k).1));
      WalkedElsewhere(u, k, 0, n, frame, j);
    }
  }

  /** What a timer event makes of one connection, when all rooms are in order. */
  function Timed<C>(s: State<C>, c: C): P.Peer
    requires InOrder(s) && c in s.peers
  {
    if s.peers[c].place.In? then P.Ticked(s.peers[c], TickFrame(s, s.peers[c].place)) else s.peers[c]
  }

  /** The rooms that have had their tick are done, the others are as they were. */
  ghost predicate HalfTimed<C>(s: State<C>, t: State<C>, done: seq<P.Place>)
    requires InOrder(s)
  {
    && Sane(t) && InOrder(t) && t.rooms.Keys == s.rooms.Keys && t.peers.Keys == s.peers.Keys
    && (forall k | k in s.rooms && k !in done :: t.rooms[k] == s.rooms[k])
    && (forall c | c in s.peers :: t.peers[c] == if s.peers[c].place in done then Timed(s, c) else s.peers[c])
  }

  lemma HalfTimedOn<C>(s: State<C>, t: State<C>, done: seq<P.Place>, k: P.Place)
    requires InOrder(s) && HalfTimed(s, t, done) && k in s.rooms && k !in done
    ensures HalfTimed(s, Ticked(t, k), done + [k])
  {
    hide Sane, InOrder, RoomOk, Ticked, Timed;
    var u := Ticked(t, k);
    TickKeepsOrder(t, k);
    assert RoomOk(t, k) && forall j | j in s.rooms :: RoomOk(s, j) by { RoomsOk(s); RoomsOk(t); }
    forall j | j in s.rooms && j !in done + [k] ensures u.rooms[j] == s.rooms[j] { TickElsewhere(t, k, j); }
    forall c | c in s.peers ensures u.peers[c] == if s.peers[c].place in done + [k] then Timed(s, c) else s.peers[c] {
      TimedOn(s, t, done, k, c);
    }
  }

  lemma RoomsOk<C>(s: State<C>)
    requires InOrder(s)
    ensures forall k | k in s.rooms :: RoomOk(s, k)
  {
    hide RoomOk;
  }

  lemma TimedOn<C>(s: State<C>, t: State<C>, done: seq<P.Place>, k: P.Place, c: C)
    requires InOrder(s) && HalfTimed(s, t, done) && k in s.rooms && k !in done && c in s.peers
    ensures RoomOk(t, k) && Ticked(t, k).peers[c] == if s.peers[c].place in done + [k] then Timed(s, c) else s.peers[c]
  {
    hide Sane, Ticked, P.Ticked, Frame, SnapshotPayload, TickFrame;
    SameFrame(s, t, done, k);
    TickOnce(t, k, c);
    if c in ListOf(s, k) {
      var i :| 0 <= i < s.rooms[k].n && s.rooms[k].slots[i] == c;
      assert s.peers[c].place == k;
    }
  }

  /** The frame of a room does not depend on which rooms had their tick before. */
  lemma SameFrame<C>(s: State<C>, t: State<C>, done: seq<P.Place>, k: P.Place)
    requires InOrder(s) && HalfTimed(s, t, done) && k in s.rooms && k !in done
    ensures RoomOk(t, k) && TickFrame(t, k) == TickFrame(s, k) && ListOf(t, k) == ListOf(s, k)
  {
    hide Sane, Frame, SnapshotPayload, Timed, P.Advance;
    assert ListOf(t, k) == ListOf(s, k);
    forall c | c in ListOf(s, k) ensures c in s.peers && t.peers[c] == s.peers[c] {
      var i :| 0 <= i < s.rooms[k].n && s.rooms[k].slots[i] == c;
    }
    assert Entries(t.peers, ListOf(s, k)) == Entries(s.peers, ListOf(s, k));
  }

  /** A timer event with all rooms in order, whatever order the map yields and whatever fails: each
      connection in a room is moved once and offered the frame of its own room once, a frame that shows
      the members at the start of the event; nobody else is touched; and all rooms are in order again. */
  lemma TimerOnce<C>(s: State<C>, order: seq<P.Place>)
    requires Sane(s) && InOrder(s) && Enumerates(order, s)
    ensures InOrder(TickedAll(s, order)) && TickedAll(s, order).peers.Keys == s.peers.Keys
    ensures forall c | c in s.peers :: TickedAll(s, order).peers[c] == Timed(s, c)
  {
    TimerSoFar(s, order, |order|);
    assert order[..|order|] == order;
    forall c | c in s.peers ensures TickedAll(s, order).peers[c] == Timed(s, c) {
      assert s.peers[c].place in order <==> s.peers[c].place.In?;
    }
  }

  lemma {:induction false} TimerSoFar<C>(s: State<C>, order: seq<P.Place>, i: nat)
    requires Sane(s) && InOrder(s) && Distinct(order) && (forall k | k in order :: k in s.rooms) && i <= |order|
    ensures HalfTimed(s, TickedAll(s, order[..i]), order[..i])
  {
    hide Sane, InOrder, HalfTimed, Ticked, TickedAll;
    if i == 0 {
      TickedNone(s);
      Untimed(s);
    } else {
      TimerSoFar(s, order, i - 1);
      TickedMore(s, order, i - 1);
      HalfTimedOn(s, TickedAll(s, order[..i - 1]), order[..i - 1], order[i - 1]);
      assert order[..i - 1] + [order[i - 1]] == order[..i];
    }
  }

  lemma Untimed<C>(s: State<C>)
    requires Sane(s) && InOrder(s)
    ensures HalfTimed(s, s, [])
  {
  }

  /** What the frames of a byte stream make of a connection. */
  function SaidIn(bytes: Bytes): M.Said { M.HeardAll(M.NOTHING, F.Feed([], bytes, F.NEVER).log) }

  /** In any run in which nobody has joined twice: the list of a room is made of accepted connections, and
      accepted connection `i` is in it exactly when it is open and its own stream names this room. */
  lemma ListsAreStreams<C>(es: seq<Event>, names: seq<C>, orders: seq<seq<P.Place>>, k: P.Place)
    requires Distinct(names) && Chosen(es, names, orders) && k in Run(es, names, orders).s.rooms
    requires forall c | c in Run(es, names, orders).joins :: Run(es, names, orders).joins[c] <= 1
    ensures var w := Run(es, names, orders);
            && RoomOk(w.s, k) && Distinct(ListOf(w.s, k)) && w.n == M.AcceptsIn(es)
            && (forall c | c in ListOf(w.s, k) :: c in names[..w.n])
            && (forall i | 0 <= i < w.n ::
                  names[i] in ListOf(w.s, k) <==>
                    !w.s.peers[names[i]].o.closed && SaidIn(M.StreamOf(es, i).bytes).place == k)
  {
    hide Run, Chosen, Sane, F.Feed, M.HeardAll, M.StreamOf;
    RunInOrder(es, names, orders);
    var w := Run(es, names, orders);
    RoomDistinct(w.s, k);
    M.OpenIsSpoken(es, names, orders, 0);
    forall i | 0 <= i < w.n
      ensures names[i] in ListOf(w.s, k) <==>
                !w.s.peers[names[i]].o.closed && SaidIn(M.StreamOf(es, i).bytes).place == k
    {
      M.OpenIsSpoken(es, names, orders, i);
      if names[i] in ListOf(w.s, k) {
        var j :| 0 <= j < w.s.rooms[k].n && w.s.rooms[k].slots[j] == names[i];
      }
    }
  }
}
