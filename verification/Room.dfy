/** Room state as every server keeps it: who is in, where they are, which tick it is.
    Commands and ticks are functions on values, as in the Clojure server. */
module Room {
  import opened Wire
  import opened Sequences

  datatype Player = Player(x: int, y: int, vx: int, vy: int, lastSeq: int)

  /** `conns` maps a player id to the index of its connection; one connection may have
      joined more than once, under several ids. */
  datatype Game = Game(tick: int, players: map<int, Player>, conns: map<int, nat>)

  const EMPTY_GAME := Game(0, map[], map[])

  function Joined(g: Game, pid: int, conn: nat): Game
  {
    g.(players := g.players[pid := Player(0, 0, 0, 0, 0)], conns := g.conns[pid := conn])
  }

  function Moved(g: Game, pid: int, lastSeq: int, dx: int, dy: int): Game
  {
    if pid in g.players then
      g.(players := g.players[pid := g.players[pid].(vx := dx, vy := dy, lastSeq := lastSeq)])
    else g
  }

  function Left(g: Game, pid: int): Game
  {
    g.(players := g.players - {pid}, conns := g.conns - {pid})
  }

  function Advance(p: Player): Player
  {
    p.(x := Wrap32(p.x + p.vx), y := Wrap32(p.y + p.vy))
  }

  function Ticked(g: Game): Game
  {
    g.(tick := (g.tick + 1) % TWO32, players := map pid | pid in g.players :: Advance(g.players[pid]))
  }

  /** A loop over a map: every key once, in an order the runtime picks. */
  predicate Visits(order: seq<int>, keys: set<int>)
  {
    Distinct(order) && keys == set pid | pid in order
  }

  lemma {:induction false} VisitsLength(order: seq<int>, keys: set<int>)
    requires Visits(order, keys)
    ensures |order| == |keys|
  {
    if order != [] {
      var m := |order| - 1;
      VisitsLength(order[..m], keys - {order[m]});
    }
  }

  function Entries(g: Game, order: seq<int>): (es: seq<Entry>)
    requires forall i | 0 <= i < |order| :: order[i] in g.players
    ensures |es| == |order|
  {
    seq(|order|, i requires 0 <= i < |order| =>
      var p := g.players[order[i]]; Entry(order[i], p.x, p.y, p.lastSeq))
  }

  function SnapshotFrame(g: Game, order: seq<int>): Bytes
    requires forall i | 0 <= i < |order| :: order[i] in g.players
  {
    Frame(SnapshotPayload(g.tick, Entries(g, order)))
  }

  function Recipients(g: Game, dests: seq<int>): (r: seq<nat>)
    requires forall i | 0 <= i < |dests| :: dests[i] in g.conns
    ensures |r| == |dests|
  {
    seq(|dests|, i requires 0 <= i < |dests| => g.conns[dests[i]])
  }
}
