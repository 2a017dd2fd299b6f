/** The write side of the pooled Dart server (servers/dart-pool): unsent bytes sit in a window
    `wstart..wlen` of a growable array that slides right as the kernel accepts them, and is
    compacted or reset on the way. Frames are never shed. */
module DartOutbound {
  import opened Wire
  import opened Framing
  import opened DartInbound

  /** One write of the socket: it accepts up to `n` bytes (0 or less means it would block), or
      throws. */
  datatype WriteResult = Accepts(n: int) | Throws

  function Answer(script: seq<WriteResult>): WriteResult { if script == [] then Accepts(0) else script[0] }
  function Later(script: seq<WriteResult>): seq<WriteResult> { if script == [] then [] else script[1..] }
  function Taken(w: WriteResult, len: nat): (k: nat)
    ensures k <= len
  {
    if w.Accepts? && w.n > 0 then Min(w.n, len) else 0
  }

  /** What draining a window comes to: the bytes taken so far, those left, whether no write failed,
      and the answers that are left. */
  datatype Drained = Drained(sent: Bytes, rest: Bytes, ok: bool, later: seq<WriteResult>)

  /** It goes on until nothing is left or a write takes none. */
  function Drain(sent: Bytes, rest: Bytes, script: seq<WriteResult>): Drained
    decreases |rest|
  {
    if rest == [] then Drained(sent, rest, true, script)
    else
      var k := Taken(Answer(script), |rest|);
      if Answer(script).Throws? then Drained(sent, rest, false, Later(script))
      else if k == 0 then Drained(sent, rest, true, Later(script))
      else Drain(sent + rest[..k], rest[k..], Later(script))
  }

  class Conn {
    var wbuf: array<Byte>
    var wstart: nat
    var wlen: nat
    var closed: bool
    var writeEvents: bool
    var script: seq<WriteResult>
    var sent: Bytes
    /** The frames handed to the connection, and the bytes moved by compaction and by growth. */
    ghost var admitted: seq<Bytes>
    ghost var compacted: nat
    ghost var grown: nat

    /** The queue is first in, first out; write events are wanted exactly while it is not empty;
        all copying done so far is paid for by bytes accepted and by capacity. */
    ghost predicate Valid()
      reads this, wbuf
    {
      && wstart <= wlen <= wbuf.Length
      && sent + wbuf[wstart..wlen] == Concat(admitted)
      && (writeEvents <==> wstart < wlen)
      && compacted + wstart <= |sent|
      && grown <= wbuf.Length
    }

    constructor (script: seq<WriteResult>)
      ensures Valid() && sent == [] && admitted == [] && !closed && this.script == script && fresh(wbuf)
    {
      wbuf, wstart, wlen := new Byte[0], 0, 0;
      closed, writeEvents, sent, admitted, compacted, grown := false, false, [], [], 0, 0;
      this.script := script;
    }

    method Write(data: Bytes) returns (answer: WriteResult, n: nat)
      modifies `script, `sent
      ensures answer == Answer(old(script)) && script == Later(old(script))
      ensures n == Taken(answer, |data|) && sent == old(sent) + data[..n]
    {
      answer := Answer(script);
      script := Later(script);
      n := Taken(answer, |data|);
      sent := sent + data[..n];
    }

    /** Makes the window start at the front of the array when it is empty, or when more than
        4096 bytes and more than half of the array's used part lie before it. */
    method Compact()
      requires wstart <= wlen <= wbuf.Length && compacted + wstart <= |sent|
      modifies `wstart, `wlen, `compacted, wbuf
      ensures wstart <= wlen <= wbuf.Length && compacted + wstart <= |sent|
      ensures wbuf[wstart..wlen] == old(wbuf[wstart..wlen])
    {
      if wstart > 0 && wstart == wlen {
        wstart, wlen := 0, 0;
      } else if wstart > 4096 && wstart * 2 > wlen {
        var remaining := wlen - wstart;
        ghost var window := wbuf[wstart..wlen];
        SetRange(wbuf, 0, remaining, wbuf, wstart);
        assert wbuf[..remaining] == window;
        compacted := compacted + remaining;
        wstart, wlen := 0, remaining;
      }
    }

    /** Makes room for `need` bytes by doubling. */
    method Grow(need: nat)
      requires wstart <= wlen <= wbuf.Length && grown <= wbuf.Length
      modifies `wbuf, `grown
      ensures wstart <= wlen <= wbuf.Length && need <= wbuf.Length && grown <= wbuf.Length
      ensures wbuf == old(wbuf) || fresh(wbuf)
      ensures wbuf[wstart..wlen] == old(wbuf[wstart..wlen])
    {
      if need > wbuf.Length {
        var cap := if wbuf.Length == 0 then 4096 else wbuf.Length * 2;
        while cap < need
          invariant cap >= 2 * wbuf.Length && cap > 0
          decreases need - cap
        {
          cap := cap * 2;
        }
        var nb := new Byte[cap];
        SetRange(nb, 0, wlen, wbuf, 0);
        grown := grown + wlen;
        assert nb[..wlen] == wbuf[..wlen];
        assert nb[wstart..wlen] == nb[..wlen][wstart..] && wbuf[wstart..wlen] == wbuf[..wlen][wstart..];
        wbuf := nb;
      }
    }

    method Append(src: array<Byte>, off: nat, count: nat)
      requires wstart <= wlen <= wbuf.Length && compacted + wstart <= |sent| && grown <= wbuf.Length
      requires off + count <= src.Length && src != wbuf
      modifies `wstart, `wlen, `compacted, `wbuf, `grown, wbuf
      ensures wstart <= wlen <= wbuf.Length && compacted + wstart <= |sent| && grown <= wbuf.Length
      ensures wbuf == old(wbuf) || fresh(wbuf)
      ensures wbuf[wstart..wlen] == old(wbuf[wstart..wlen]) + old(src[off..off + count])
    {
      Compact();
      var need := wlen + count;
      Grow(need);
      ghost var pre := wbuf[..wlen];
      SetRange(wbuf, wlen, count, src, off);
      assert wbuf[..need] == pre + old(src[off..off + count]);
      assert wbuf[wstart..need] == wbuf[..need][wstart..];
      wlen := need;
    }

    /** Sends a frame: straight to the socket when nothing is queued, else behind the queue. */
    method Send(frame: array<Byte>, len: nat)
      requires Valid() && len <= frame.Length && frame != wbuf
      modifies this, wbuf
      ensures Valid() && (wbuf == old(wbuf) || fresh(wbuf))
      ensures closed ==> sent == old(sent) && admitted == old(admitted)
      ensures !closed ==> !old(closed) && admitted == old(admitted) + [old(frame[..len])]
      ensures closed && !old(closed) ==> old(wstart == wlen && Answer(script).Throws?)
      ensures old(closed || wstart < wlen) ==> sent == old(sent) && script == old(script)
      ensures old(!closed && wstart == wlen) ==>
                script == old(Later(script)) && sent == old(sent + frame[..Taken(Answer(script), len)])
    {
      if closed { return; }
      if wstart < wlen {
        Behind(frame, len);
        return;
      }
      var answer, off := Write(frame[..len]);
      if answer.Throws? {
        assert sent == old(sent);
        closed := true;
        return;
      }
      Rest(frame, off, len);
    }

    method Behind(frame: array<Byte>, len: nat)
      requires Valid() && len <= frame.Length && frame != wbuf && wstart < wlen
      modifies `wstart, `wlen, `compacted, `wbuf, `grown, `admitted, wbuf
      ensures Valid() && (wbuf == old(wbuf) || fresh(wbuf))
      ensures admitted == old(admitted) + [old(frame[..len])] && closed == old(closed) && sent == old(sent)
    {
      hide Concat;
      ghost var f, q := frame[..len], wbuf[wstart..wlen];
      Append(frame, 0, len);
      admitted := admitted + [f];
      ConcatPush(old(admitted), f);
      assert sent + (q + f) == sent + q + f;
    }

    /** Queues what is left of a frame whose first `off` bytes the kernel took. */
    method Rest(frame: array<Byte>, off: nat, len: nat)
      requires off <= len <= frame.Length && frame != wbuf
      requires wstart == wlen <= wbuf.Length && !writeEvents && compacted + wstart <= |sent| && grown <= wbuf.Length
      requires sent == Concat(admitted) + frame[..off]
      modifies `wstart, `wlen, `compacted, `wbuf, `grown, `admitted, `writeEvents, wbuf
      ensures Valid() && (wbuf == old(wbuf) || fresh(wbuf))
      ensures admitted == old(admitted) + [old(frame[..len])]
    {
      hide Concat;
      ghost var f := frame[..len];
      admitted := admitted + [f];
      ConcatPush(old(admitted), f);
      assert f[..off] == frame[..off] && f[off..] == frame[off..len];
      assert Concat(old(admitted)) + f[..off] + f[off..] == Concat(old(admitted)) + f;
      if off < len {
        Append(frame, off, len - off);
        writeEvents := true;
        assert wbuf[wstart..wlen] == f[off..];
      }
    }

    /** Drains the window until it is empty or the kernel takes no more; `ok` is false when the
        socket failed and the caller must close. */
    method Flush() returns (ok: bool)
      requires Valid()
      modifies `wstart, `wlen, `sent, `script, `writeEvents
      ensures Valid() && closed == old(closed) && admitted == old(admitted)
      ensures Drained(sent, wbuf[wstart..wlen], ok, script) == old(Drain(sent, wbuf[wstart..wlen], script))
    {
      hide Concat, Drain;
      DrainKeeps(sent, wbuf[wstart..wlen], script);
      while wstart < wlen
        invariant wstart <= wlen <= wbuf.Length && compacted + wstart <= |sent|
        invariant wstart < wlen ==> writeEvents
        invariant Drain(sent, wbuf[wstart..wlen], script) == old(Drain(sent, wbuf[wstart..wlen], script))
        decreases wlen - wstart
      {
        ghost var window, before := wbuf[wstart..wlen], sent;
        DrainStep(before, window, script);
        var answer, n := Write(wbuf[wstart..wlen]);
        assert wbuf[wstart + n..wlen] == window[n..] && before + window[..0] == before;
        if answer.Throws? { return false; }
        if n <= 0 { break; }
        wstart := wstart + n;
      }
      if wstart >= wlen { DrainEnd(sent, wbuf[wstart..wlen], script); }
      var drained := wstart >= wlen;
      if drained { wstart, wlen := 0, 0; }
      writeEvents := !drained;
      return true;
    }
  }

  lemma DrainEnd(sent: Bytes, rest: Bytes, script: seq<WriteResult>)
    requires rest == []
    ensures Drain(sent, rest, script) == Drained(sent, rest, true, script)
  {
  }

  lemma DrainStep(sent: Bytes, rest: Bytes, script: seq<WriteResult>)
    requires rest != []
    ensures var k := Taken(Answer(script), |rest|);
            Drain(sent, rest, script) ==
              if Answer(script).Throws? then Drained(sent, rest, false, Later(script))
              else if k == 0 then Drained(sent, rest, true, Later(script))
              else Drain(sent + rest[..k], rest[k..], Later(script))
  {
  }

  /** Draining loses nothing. */
  lemma {:induction false} DrainKeeps(sent: Bytes, rest: Bytes, script: seq<WriteResult>)
    ensures var d := Drain(sent, rest, script); d.sent + d.rest == sent + rest
    decreases |rest|
  {
    if rest != [] {
      var k := Taken(Answer(script), |rest|);
      assert sent + rest[..k] + rest[k..] == sent + rest;
      if k > 0 { DrainKeeps(sent + rest[..k], rest[k..], Later(script)); }
    }
  }

  // ---- what draining does, from the answers alone ----

  predicate Stops(w: WriteResult) { w.Throws? || w.n <= 0 }

  /** The first answer that ends a run of writes is number `m`, or there is none and `m` is how many there
      are. */
  predicate StopsAt(script: seq<WriteResult>, m: nat)
  {
    m <= |script| && (forall i | 0 <= i < m :: !Stops(script[i])) && (m < |script| ==> Stops(script[m]))
  }

  /** How many bytes these answers take. */
  function Takes(ws: seq<WriteResult>): nat
  {
    if ws == [] then 0 else (if ws[0].Accepts? && ws[0].n > 0 then ws[0].n else 0) + Takes(ws[1..])
  }

  /** What the kernel takes before it stops is sent, up to all that is queued; it is a failure exactly if
      something is left and the answer that stopped it was a failure. */
  predicate SentUpTo(sent: Bytes, rest: Bytes, script: seq<WriteResult>, m: nat, d: Drained)
    requires m <= |script|
  {
    var t := Takes(script[..m]);
    && Shifted(sent, rest, d, Min(t, |rest|))
    && (d.ok <==> t >= |rest| || m == |script| || !script[m].Throws?)
    && (t < |rest| ==> d.later == script[Min(m + 1, |script|)..])
  }

  predicate Shifted(sent: Bytes, rest: Bytes, d: Drained, k: nat)
    requires k <= |rest|
  {
    d.sent == sent + rest[..k] && d.rest == rest[k..]
  }

  lemma {:induction false} DrainSends(sent: Bytes, rest: Bytes, script: seq<WriteResult>, m: nat)
    requires StopsAt(script, m)
    ensures SentUpTo(sent, rest, script, m, Drain(sent, rest, script))
    decreases |script|
  {
    hide Stops;
    if rest == [] {
      assert Min(Takes(script[..m]), 0) == 0;
    } else if m == 0 {
      FirstStops(script);
      assert script[..0] == [] && rest[..0] == [];
    } else {
      hide SentUpTo, Takes, Min;
      var k := Taken(script[0], |rest|);
      FirstTakes(script, m, |rest|);
      DrainSends(sent + rest[..k], rest[k..], script[1..], m - 1);
      SentLater(sent, rest, script, m, Drain(sent + rest[..k], rest[k..], script[1..]), k);
    }
  }

  lemma SentLater(sent: Bytes, rest: Bytes, script: seq<WriteResult>, m: nat, d: Drained, k: nat)
    requires StopsAt(script, m) && m > 0 && 0 < |rest| && k == Taken(script[0], |rest|)
    requires SentUpTo(sent + rest[..k], rest[k..], script[1..], m - 1, d)
    ensures SentUpTo(sent, rest, script, m, d)
  {
    hide Takes, Min, Shifted, Stops, Taken;
    FirstTakes(script, m, |rest|);
    var t, l := Takes(script[1..][..m - 1]), |rest| - k;
    assert |rest[k..]| == l && 0 <= Min(t, l) <= l && Shifted(sent + rest[..k], rest[k..], d, Min(t, l));
    ShiftedTwice(sent, rest, d, k, Min(t, l));
    TailAfter(script, m);
  }

  lemma TailAfter(script: seq<WriteResult>, m: nat)
    requires 0 < m <= |script|
    ensures script[1..][Min(m, |script| - 1)..] == script[Min(m + 1, |script|)..]
  {
  }

  lemma ShiftedTwice(sent: Bytes, rest: Bytes, d: Drained, k: nat, l: nat)
    requires k <= |rest| && l <= |rest| - k && Shifted(sent + rest[..k], rest[k..], d, l)
    ensures Shifted(sent, rest, d, k + l)
  {
    assert rest[..k] + rest[k..][..l] == rest[..k + l];
    assert sent + rest[..k] + rest[k..][..l] == sent + rest[..k + l];
  }

  lemma FirstStops(script: seq<WriteResult>)
    requires StopsAt(script, 0)
    ensures script != [] ==> script[0].Throws? || script[0].n <= 0
  {
  }

  lemma FirstTakes(script: seq<WriteResult>, m: nat, len: nat)
    requires StopsAt(script, m) && m > 0 && len > 0
    ensures script[0].Accepts? && StopsAt(script[1..], m - 1)
    ensures var k, t := Taken(script[0], len), Takes(script[1..][..m - 1]);
            && 0 < k <= len && k + Min(t, len - k) == Min(Takes(script[..m]), len)
            && (t >= len - k <==> Takes(script[..m]) >= len) && 0 <= Min(t, len - k) <= len - k
  {
    assert script[..m][1..] == script[1..][..m - 1];
    assert !Stops(script[0]);
  }
}
