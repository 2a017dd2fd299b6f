/** The room goroutine of the Go servers (servers/go, servers/go-pool) as it runs: players are
    objects updated in place, and a frame is filled in place. Its commands and ticks are those of
    the room model, so what the two server machines say about rooms holds of this code. */
module RoomActor {
  import opened Wire
  import R = Room

  class Player {
    const id: int
    var x: int
    var y: int
    var vx: int
    var vy: int
    var lastSeq: int

    constructor (id: int)
      ensures this.id == id && Value() == R.Player(0, 0, 0, 0, 0)
    {
      this.id := id;
      x, y, vx, vy, lastSeq := 0, 0, 0, 0, 0;
    }

    ghost function Value(): R.Player
      reads this
    {
      R.Player(x, y, vx, vy, lastSeq)
    }

    ghost function Shown(): Entry
      reads this
    {
      Entry(id, x, y, lastSeq)
    }

    method Step()
      modifies `x, `y
      ensures Value() == R.Advance(old(Value()))
    {
      x := Wrap32(x + vx);
      y := Wrap32(y + vy);
    }
  }

  class Room {
    var tick: int
    var players: map<int, Player>
    var conns: map<int, nat>

    ghost predicate Valid()
      reads this, players.Values
    {
      forall pid | pid in players :: players[pid].id == pid
    }

    ghost function Game(): R.Game
      reads this, players.Values
    {
      R.Game(tick, map pid | pid in players :: players[pid].Value(), conns)
    }

    constructor ()
      ensures Valid() && Game() == R.EMPTY_GAME
    {
      tick, players, conns := 0, map[], map[];
    }

    method Join(pid: int, conn: nat)
      requires Valid()
      modifies this
      ensures Valid() && Game() == R.Joined(old(Game()), pid, conn)
    {
      var p := new Player(pid);
      players := players[pid := p];
      conns := conns[pid := conn];
    }

    method Move(pid: int, lastSeq: int, dx: int, dy: int)
      requires Valid()
      modifies players.Values
      ensures Valid() && Game() == R.Moved(old(Game()), pid, lastSeq, dx, dy)
    {
      if pid in players {
        var p := players[pid];
        p.vx, p.vy, p.lastSeq := dx, dy, lastSeq;
        assert forall q | q in players && q != pid :: players[q] != p;
      }
    }

    method Leave(pid: int)
      requires Valid()
      modifies this
      ensures Valid() && Game() == R.Left(old(Game()), pid)
    {
      players := players - {pid};
      conns := conns - {pid};
    }

    /** Moves every player once, in whatever order the map yields them. */
    method Advance(order: seq<int>)
      requires Valid() && R.Visits(order, players.Keys)
      modifies `tick, players.Values
      ensures Valid() && Game() == R.Ticked(old(Game()))
    {
      tick := (tick + 1) % TWO32;
      assert forall i | 0 <= i < |order| :: order[i] in order && order[i] in players;
      hide R.Advance;
      for i := 0 to |order|
        invariant Valid() && tick == (old(tick) + 1) % TWO32
        invariant forall k | 0 <= k < i :: players[order[k]].Value() == R.Advance(old(players[order[k]].Value()))
        invariant forall k | i <= k < |order| :: players[order[k]].Value() == old(players[order[k]].Value())
      {
        var p := players[order[i]];
        forall k | 0 <= k < |order| && k != i ensures players[order[k]] != p {
          assert order[k] != order[i] && players[order[k]].id == order[k];
        }
        p.Step();
      }
      forall pid | pid in players ensures players[pid].Value() == R.Advance(old(players[pid].Value())) {
        assert pid in order;
        var k :| 0 <= k < |order| && order[k] == pid;
      }
      assert Game().players == R.Ticked(old(Game())).players;
    }

    /** Fills a buffer with the snapshot frame, whatever it held before. */
    method Fill(order: seq<int>, b: array<Byte>)
      requires Valid() && R.Visits(order, players.Keys) && b.Length >= 4 + 7 + |players| * 16
      modifies b
      ensures (forall i | 0 <= i < |order| :: order[i] in Game().players)
              && |R.SnapshotFrame(Game(), order)| <= b.Length
              && b[..|R.SnapshotFrame(Game(), order)|] == R.SnapshotFrame(Game(), order)
    {
      hide SnapshotPayload, Frame;
      R.VisitsLength(order, players.Keys);
      assert |players.Keys| == |players|;
      assert forall i | 0 <= i < |order| :: order[i] in order && order[i] in players;
      FillEntries(order, R.Entries(Game(), order), b);
    }

    method FillEntries(order: seq<int>, ghost es: seq<Entry>, b: array<Byte>)
      requires Valid() && |es| == |order| == |players| && b.Length >= 4 + 7 + |order| * 16
      requires forall i | 0 <= i < |order| :: order[i] in players && players[order[i]].Shown() == es[i]
      modifies b
      ensures b[..11 + 16 * |es|] == Frame(SnapshotPayload(tick, es))
    {
      hide SnapshotHeader, EntryBytes, EntriesBytes, SnapshotPayload, Frame;
      PutHeader(b, tick, |players|);
      var off := 11;
      for i := 0 to |order|
        invariant off == 11 + 16 * i
        invariant b[..off] == SnapshotHeader(tick, |es|) + EntriesBytes(es[..i])
      {
        var p := players[order[i]];
        PutEntry(b, off, Entry(p.id, p.x, p.y, p.lastSeq));
        EntriesSnoc(es, i);
        off := off + 16;
      }
      assert es[..|order|] == es;
      HeaderAndEntries(tick, es);
    }
  }
}
