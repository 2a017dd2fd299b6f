/** The servers treat overflow differently: ocaml and clojure let positions grow and cut them to
    32 bits in the snapshot, go, zig, odin and dart-pool wrap at every tick; clojure keeps the tick
    number signed, the others unsigned. None of this can be seen on the wire. */
module Positions {
  import opened Wire
  import opened Room

  /** What a server does to a number before it stores it. */
  type Keep = int -> int

  ghost predicate Harmless(keep: Keep) { forall v :: keep(v) % TWO32 == v % TWO32 }

  datatype Policy = Policy(position: Keep, tick: Keep)

  ghost predicate Sound(p: Policy) { Harmless(p.position) && Harmless(p.tick) }

  datatype Command = Join(pid: int, conn: nat) | Move(pid: int, lastSeq: int, dx: int, dy: int) | Leave(pid: int) | Tick

  function AdvanceBy(q: Player, keep: Keep): Player
  {
    q.(x := keep(q.x + q.vx), y := keep(q.y + q.vy))
  }

  function Apply(g: Game, c: Command, p: Policy): Game
  {
    match c
    case Join(pid, conn) => Joined(g, pid, conn)
    case Move(pid, lastSeq, dx, dy) => Moved(g, pid, lastSeq, dx, dy)
    case Leave(pid) => Left(g, pid)
    case Tick =>
      g.(tick := p.tick(g.tick + 1),
         players := map pid | pid in g.players :: AdvanceBy(g.players[pid], p.position))
  }

  function Run(g: Game, cs: seq<Command>, p: Policy): Game
  {
    if cs == [] then g else Apply(Run(g, cs[..|cs| - 1], p), cs[|cs| - 1], p)
  }

  predicate SamePlayer(q: Player, r: Player)
  {
    && q.x % TWO32 == r.x % TWO32 && q.y % TWO32 == r.y % TWO32
    && q.vx == r.vx && q.vy == r.vy && q.lastSeq == r.lastSeq
  }

  predicate SameGame(g: Game, h: Game)
  {
    && g.tick % TWO32 == h.tick % TWO32 && g.conns == h.conns && g.players.Keys == h.players.Keys
    && forall pid | pid in g.players :: SamePlayer(g.players[pid], h.players[pid])
  }

  lemma SameAdvance(q: Player, r: Player, k: Keep, l: Keep)
    requires SamePlayer(q, r) && Harmless(k) && Harmless(l)
    ensures SamePlayer(AdvanceBy(q, k), AdvanceBy(r, l))
  {
    SameSum(q.x, r.x, q.vx);
    SameSum(q.y, r.y, q.vy);
  }

  lemma SameApply(g: Game, h: Game, c: Command, p: Policy, q: Policy)
    requires SameGame(g, h) && Sound(p) && Sound(q)
    ensures SameGame(Apply(g, c, p), Apply(h, c, q))
  {
    hide AdvanceBy;
    if c.Tick? {
      SameSum(g.tick, h.tick, 1);
      forall pid | pid in g.players
        ensures SamePlayer(AdvanceBy(g.players[pid], p.position), AdvanceBy(h.players[pid], q.position))
      {
        SameAdvance(g.players[pid], h.players[pid], p.position, q.position);
      }
    }
  }

  lemma {:induction false} SameRun(cs: seq<Command>, p: Policy, q: Policy)
    requires Sound(p) && Sound(q)
    ensures SameGame(Run(EMPTY_GAME, cs, p), Run(EMPTY_GAME, cs, q))
  {
    if cs != [] {
      SameRun(cs[..|cs| - 1], p, q);
      SameApply(Run(EMPTY_GAME, cs[..|cs| - 1], p), Run(EMPTY_GAME, cs[..|cs| - 1], q), cs[|cs| - 1], p, q);
    }
  }

  lemma SameEntry(pid: int, q: Player, r: Player)
    requires SamePlayer(q, r)
    ensures EntryBytes(Entry(pid, q.x, q.y, q.lastSeq)) == EntryBytes(Entry(pid, r.x, r.y, r.lastSeq))
  {
    hide Be32;
    Be32Equal(q.x, r.x);
    Be32Equal(q.y, r.y);
  }

  lemma SameBytes(g: Game, h: Game, order: seq<int>)
    requires SameGame(g, h) && forall i | 0 <= i < |order| :: order[i] in g.players
    ensures SnapshotFrame(g, order) == SnapshotFrame(h, order)
  {
    hide Be32, SamePlayer, EntriesBytes;
    Be32Equal(g.tick, h.tick);
    var es, fs := Entries(g, order), Entries(h, order);
    forall i | 0 <= i < |es| ensures EntryBytes(es[i]) == EntryBytes(fs[i]) {
      var pid := order[i];
      assert pid in g.players && SamePlayer(g.players[pid], h.players[pid]);
      SameEntry(pid, g.players[pid], h.players[pid]);
    }
    SameEntries(es, fs);
  }

  lemma {:induction false} SameEntries(es: seq<Entry>, fs: seq<Entry>)
    requires |es| == |fs| && forall i | 0 <= i < |es| :: EntryBytes(es[i]) == EntryBytes(fs[i])
    ensures EntriesBytes(es) == EntriesBytes(fs)
  {
    if es != [] { SameEntries(es[..|es| - 1], fs[..|fs| - 1]); }
  }

  /** After any joins, moves, leaves and ticks, two servers that differ in when they cut numbers to
      32 bits send the same snapshot. */
  lemma WrappingIsInvisible(cs: seq<Command>, p: Policy, q: Policy, order: seq<int>)
    requires Sound(p) && Sound(q)
    requires forall i | 0 <= i < |order| :: order[i] in Run(EMPTY_GAME, cs, p).players
    ensures forall i | 0 <= i < |order| :: order[i] in Run(EMPTY_GAME, cs, q).players
    ensures SnapshotFrame(Run(EMPTY_GAME, cs, p), order) == SnapshotFrame(Run(EMPTY_GAME, cs, q), order)
  {
    SameRun(cs, p, q);
    SameBytes(Run(EMPTY_GAME, cs, p), Run(EMPTY_GAME, cs, q), order);
  }

  function Grow(v: int): int { v }

  function Unsigned(v: int): int { v % TWO32 }

  const GO_POLICY := Policy(Wrap32, Unsigned)
  const OCAML_POLICY := Policy(Grow, Unsigned)
  const CLOJURE_POLICY := Policy(Grow, Wrap32)

  /** The policies in use are sound, and that of the Go servers is a tick of the room model. */
  lemma PoliciesInUse(g: Game)
    ensures Sound(GO_POLICY) && Sound(OCAML_POLICY) && Sound(CLOJURE_POLICY)
    ensures Apply(g, Tick, GO_POLICY) == Ticked(g)
  {
    hide Wrap32;
    forall v: int ensures Wrap32(v) % TWO32 == v % TWO32 { WrapCongruent(v); }
  }

  lemma WrapCongruent(v: int)
    ensures Wrap32(v) % TWO32 == v % TWO32
  {
  }
}
