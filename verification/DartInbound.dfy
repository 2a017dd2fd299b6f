/** The read side of the pooled Dart server (servers/dart-pool): bytes live in a growable array,
    and when nothing is left over from earlier reads a fresh read buffer is parsed in place. */
module DartInbound {
  import opened Wire
  import opened Framing

  /** What one read of the socket yields; `Nothing` stands for null and for no bytes. */
  datatype Read = Data(bytes: Bytes) | Nothing | Throws

  /** The bytes one readiness event takes, chunk by chunk, and whether a read threw. A read
      shorter than 1024 bytes ends the event. */
  function Chunks(script: seq<Read>): seq<Bytes>
  {
    if script == [] || !script[0].Data? || |script[0].bytes| == 0 then []
    else [script[0].bytes] + if |script[0].bytes| < 1024 then [] else Chunks(script[1..])
  }

  function Thrown(script: seq<Read>): bool
  {
    script != [] && (script[0].Throws? || (script[0].Data? && |script[0].bytes| >= 1024 && Thrown(script[1..])))
  }

  /** What the head of the script decides, and the chunks after it. */
  lemma NextChunk(s: seq<Read>) returns (more: seq<Bytes>)
    requires s != []
    ensures s[0].Throws? ==> Thrown(s)
    ensures !s[0].Throws? && (s[0].Nothing? || |s[0].bytes| == 0) ==> !Thrown(s)
    ensures !s[0].Data? || |s[0].bytes| == 0 ==> Chunks(s) == []
    ensures s[0].Data? && |s[0].bytes| > 0 ==> Chunks(s) == [s[0].bytes] + more
    ensures s[0].Data? && 0 < |s[0].bytes| < 1024 ==> more == [] && !Thrown(s)
    ensures s[0].Data? && |s[0].bytes| >= 1024 ==> more == Chunks(s[1..]) && Thrown(s) == Thrown(s[1..])
  {
    more := if s[0].Data? && |s[0].bytes| >= 1024 then Chunks(s[1..]) else [];
  }

  /** The answer does not end the event: it is a read that filled the buffer. */
  predicate GoesOn(r: Read) { r.Data? && |r.bytes| >= 1024 }

  /** The first answer that ends the event is number `m`, or there is none and `m` is how many there are. */
  predicate EndsAt(script: seq<Read>, m: nat)
  {
    m <= |script| && (forall i | 0 <= i < m :: GoesOn(script[i])) && (m < |script| ==> !GoesOn(script[m]))
  }

  /** The event takes every chunk before the answer that ends it, and that one's bytes if it has any; it
      throws exactly if that answer does. */
  lemma {:induction false} ChunksUpTo(script: seq<Read>, m: nat)
    requires EndsAt(script, m)
    ensures var last := if m < |script| && script[m].Data? && |script[m].bytes| > 0 then 1 else 0;
            && |Chunks(script)| == m + last
            && (forall i | 0 <= i < m + last :: script[i].Data? && Chunks(script)[i] == script[i].bytes)
            && (Thrown(script) <==> m < |script| && script[m].Throws?)
  {
    if m > 0 {
      assert GoesOn(script[0]);
      ChunksUpTo(script[1..], m - 1);
    } else if script != [] {
      assert !GoesOn(script[0]);
    }
  }

  lemma ChunksEnd()
    ensures Chunks([]) == [] && !Thrown([])
  {
  }

  lemma DeliverNone(i: Inbox, kills: Verdict)
    ensures DeliverAll(i, [], kills) == i
  {
  }

  /** Setting a range of `dst` from `src`, which may be the same array: all reads come first. */
  method SetRange(dst: array<Byte>, at: nat, count: nat, src: array<Byte>, off: nat)
    requires at + count <= dst.Length && off + count <= src.Length
    modifies dst
    ensures dst[..] == old(dst[..at]) + old(src[off..off + count]) + old(dst[at + count..])
  {
    forall i | 0 <= i < count { dst[at + i] := src[off + i]; }
  }

  class Conn {
    var rbuf: array<Byte>
    var rlen: nat
    var closed: bool
    var log: seq<Bytes>
    const kills: Verdict

    ghost predicate Valid()
      reads this
    {
      rlen <= rbuf.Length && rbuf.Length > 0
    }

    constructor (kills: Verdict)
      ensures Valid() && Box() == Inbox([], false, []) && this.kills == kills && fresh(rbuf)
    {
      rbuf, rlen := new Byte[4096], 0;
      closed, log := false, [];
      this.kills := kills;
    }

    function Box(): Inbox
      requires Valid()
      reads this, rbuf
    {
      Inbox(log, closed, rbuf[..rlen])
    }

    /** Appends `count` bytes of `src` from `off`, doubling the buffer as often as needed. */
    method AppendFrom(src: array<Byte>, off: nat, count: nat)
      requires Valid() && off + count <= src.Length && src != rbuf
      modifies this`rbuf, this`rlen, rbuf
      ensures Valid() && (rbuf == old(rbuf) || fresh(rbuf))
      ensures rbuf[..rlen] == old(rbuf[..rlen]) + old(src[off..off + count])
    {
      var need := rlen + count;
      if need > rbuf.Length {
        var cap := rbuf.Length * 2;
        while cap < need
          invariant cap > 0
          decreases need - cap
        {
          cap := cap * 2;
        }
        var nb := new Byte[cap];
        SetRange(nb, 0, rlen, rbuf, 0);
        rbuf := nb;
      }
      assert rbuf[..rlen] == old(rbuf[..rlen]);
      SetRange(rbuf, rlen, count, src, off);
      rlen := need;
    }

    /** Drops the first `front` bytes, shifting the remainder to the start. */
    method Consume(front: nat)
      requires Valid() && front <= rlen
      modifies this`rlen, rbuf
      ensures Valid() && rbuf[..rlen] == old(rbuf[front..rlen])
    {
      var remaining := rlen - front;
      if remaining > 0 { SetRange(rbuf, 0, remaining, rbuf, front); }
      rlen := remaining;
    }

    method HandleFrame(payload: Bytes)
      modifies this`log, this`closed
      ensures log == old(log) + [payload] && closed == (old(closed) || kills(log))
    {
      log := log + [payload];
      if kills(log) { closed := true; }
    }

    /** Dispatches the whole frames in `buf[..len]` and returns how many bytes they take. */
    method ParseFrames(buf: array<Byte>, len: nat) returns (used: nat)
      requires !closed && len <= buf.Length
      modifies this`log, this`closed
      ensures used <= len && Same(Inbox(log, closed, buf[used..len]), Feed(old(log), buf[..len], kills))
    {
      hide Feed, Get32;
      ghost var s := buf[..len];
      var off := 0;
      while len - off >= 4
        invariant off <= len && !closed
        invariant Feed(log, s[off..], kills) == Feed(old(log), s, kills)
        decreases len - off
      {
        FeedAt(log, s, off, kills);
        var flen := Be32At(buf, off, len);
        if flen == 0 || flen > MAX_FRAME {
          closed := true;
          return off;
        }
        if len - off - 4 < flen { break; }
        assert buf[off + 4..off + 4 + flen] == s[off + 4..off + 4 + flen];
        HandleFrame(buf[off + 4..off + 4 + flen]);
        if closed { return off; }
        off := off + (4 + flen);
      }
      FeedAt(log, s, off, kills);
      assert buf[off..len] == s[off..];
      return off;
    }

    function Be32At(buf: array<Byte>, o: nat, len: nat): (v: int)
      requires o + 4 <= len <= buf.Length
      reads buf
      ensures v == Get32(buf[..len], o)
    {
      (buf[o] as int) * 0x100_0000 + (buf[o + 1] as int) * 0x1_0000 + (buf[o + 2] as int) * 256 + buf[o + 3] as int
    }

    /** One read delivered: parsed in place when nothing is buffered, else appended first. Both
        paths do what appending and then parsing would do. */
    method Take(data: array<Byte>)
      requires Valid() && !closed && data != rbuf
      modifies this, rbuf
      ensures Valid() && (rbuf == old(rbuf) || fresh(rbuf))
      ensures Same(Box(), Deliver(old(Box()), old(data[..]), kills))
    {
      hide Feed;
      var n := data.Length;
      assert data[..n] == data[..];
      if rlen == 0 {
        assert rbuf[..0] + data[..] == data[..n];
        var used := ParseFrames(data, n);
        if closed { return; }
        if used < n { AppendFrom(data, used, n - used); }
        assert rbuf[..rlen] == data[used..n];
      } else {
        AppendFrom(data, 0, n);
        assert rbuf[..rlen] == old(rbuf[..rlen]) + old(data[..]);
        var used := ParseFrames(rbuf, rlen);
        if closed { return; }
        if used > 0 { Consume(used); }
      }
    }

    /** A readiness event. The fast path, the slow path and any mixture of them dispatch the same
        frames, close at the same frame and keep the same bytes as append-then-parse. */
    method OnReadable(script: seq<Read>)
      requires Valid() && !closed
      modifies this, rbuf
      ensures Valid()
      ensures if !DeliverAll(old(Box()), Chunks(script), kills).closed && Thrown(script)
              then closed && log == DeliverAll(old(Box()), Chunks(script), kills).log
              else Same(Box(), DeliverAll(old(Box()), Chunks(script), kills))
    {
      hide Feed, Deliver, DeliverAll, Chunks, Thrown;
      ghost var start, all := Box(), Chunks(script);
      for i := 0 to |script|
        invariant Valid() && !closed && (rbuf == old(rbuf) || fresh(rbuf))
        invariant DeliverAll(start, all, kills) == DeliverAll(Box(), Chunks(script[i..]), kills)
        invariant Thrown(script) == Thrown(script[i..])
      {
        ghost var more := NextChunk(script[i..]);
        DeliverNone(Box(), kills);
        if script[i].Throws? {
          closed := true;
          return;
        }
        if script[i].Nothing? || |script[i].bytes| == 0 { return; }
        var d := script[i].bytes;
        var data := new Byte[|d|](k requires 0 <= k < |d| => d[k]);
        assert data[..] == d;
        ghost var next := Deliver(Box(), d, kills);
        DeliverFirst(Box(), d, more, kills);
        Take(data);
        if closed {
          ClosedStays(next, more, kills);
          return;
        }
        assert script[i + 1..] == script[i..][1..];
        DeliverNone(Box(), kills);
        if |d| < 1024 { return; }
      }
      ChunksEnd();
      DeliverNone(Box(), kills);
    }
  }
}
