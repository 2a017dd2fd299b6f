/** Reassembly of length-prefixed frames from a byte stream, as every reactor does it, and
    the proof that how the stream is cut into reads does not matter. */
module Framing {
  import opened Wire

  /** What became of a connection's inbound bytes: the payloads dispatched so far, whether
      the connection was closed on the way, and the bytes not yet consumed. */
  datatype Inbox = Inbox(log: seq<Bytes>, closed: bool, rest: Bytes)

  /** A handler's verdict. The state a handler works on is a function of the frames it was
      given so far (and of the kernel's fixed answers), so its verdict is a predicate of the
      dispatch history that ends with the frame just handled. That of the epoll reactor is
      `Lists.Rejects`, and its own parse loop is proved to use it. */
  type Verdict = seq<Bytes> -> bool

  function FrameLen(s: Bytes): nat
    requires |s| >= 4
  {
    Get32(s, 0)
  }

  predicate BadLen(n: nat) { n == 0 || n > MAX_FRAME }

  /** Consumes whole frames from the front of `s`. */
  function Feed(log: seq<Bytes>, s: Bytes, kills: Verdict): Inbox
    decreases |s|
  {
    if |s| < 4 then Inbox(log, false, s)
    else
      var n := FrameLen(s);
      if BadLen(n) then Inbox(log, true, s)
      else if |s| < 4 + n then Inbox(log, false, s)
      else
        var log' := log + [s[4..4 + n]];
        if kills(log') then Inbox(log', true, s) else Feed(log', s[4 + n..], kills)
  }

  /** One turn of a parse loop that keeps an offset into an unmoved buffer. */
  lemma FeedAt(log: seq<Bytes>, buf: Bytes, off: nat, kills: Verdict)
    requires off <= |buf|
    ensures |buf| - off < 4 ==> Feed(log, buf[off..], kills) == Inbox(log, false, buf[off..])
    ensures |buf| - off >= 4 ==>
              var n := Get32(buf, off);
              Feed(log, buf[off..], kills) ==
              if BadLen(n) then Inbox(log, true, buf[off..])
              else if |buf| - off < 4 + n then Inbox(log, false, buf[off..])
              else
                var log' := log + [buf[off + 4..off + 4 + n]];
                if kills(log') then Inbox(log', true, buf[off..]) else Feed(log', buf[off + 4 + n..], kills)
  {
    hide Get32;
    if |buf| - off >= 4 {
      SubTail(buf, off, 0, 4);
      Get32At(buf, off, buf[off..off + 4]);
      Get32At(buf[off..], 0, buf[off..off + 4]);
      var n := Get32(buf, off);
      if |buf| - off >= 4 + n {
        SubTail(buf, off, 4, 4 + n);
        assert buf[off..][4 + n..] == buf[off + 4 + n..];
      }
    }
  }

  /** Two inboxes no observer can tell apart: the unread bytes of a closed connection are
      never looked at again. */
  predicate Same(a: Inbox, b: Inbox)
  {
    a.log == b.log && a.closed == b.closed && (!a.closed ==> a.rest == b.rest)
  }

  /** One read delivered to an inbox: ignored once closed, else appended and parsed. */
  function Deliver(i: Inbox, data: Bytes, kills: Verdict): Inbox
  {
    if i.closed then i else Feed(i.log, i.rest + data, kills)
  }

  function DeliverAll(i: Inbox, chunks: seq<Bytes>, kills: Verdict): Inbox
  {
    if chunks == [] then i
    else Deliver(DeliverAll(i, chunks[..|chunks| - 1], kills), chunks[|chunks| - 1], kills)
  }

  function Concat(bs: seq<Bytes>): Bytes
  {
    if bs == [] then [] else Concat(bs[..|bs| - 1]) + bs[|bs| - 1]
  }

  lemma ConcatPush(bs: seq<Bytes>, b: Bytes)
    ensures Concat(bs + [b]) == Concat(bs) + b
  {
    assert (bs + [b])[..|bs|] == bs;
  }

  /** An inbox whose rest holds no complete frame; every parse leaves one. */
  predicate Settled(i: Inbox, kills: Verdict)
  {
    i.closed || Feed(i.log, i.rest, kills) == i
  }

  lemma {:induction false} FeedSettles(log: seq<Bytes>, s: Bytes, kills: Verdict)
    ensures Settled(Feed(log, s, kills), kills)
    decreases |s|
  {
    if |s| >= 4 && !BadLen(FrameLen(s)) && |s| >= 4 + FrameLen(s) {
      var log' := log + [s[4..4 + FrameLen(s)]];
      if !kills(log') { FeedSettles(log', s[4 + FrameLen(s)..], kills); }
    }
  }

  /** Parsing a prefix, then the leftover with the remaining bytes, is parsing it all. */
  lemma {:induction false} FeedSplit(log: seq<Bytes>, a: Bytes, b: Bytes, kills: Verdict)
    ensures Same(Feed(log, a + b, kills), Deliver(Feed(log, a, kills), b, kills))
    decreases |a|
  {
    if |a| >= 4 {
      var n := FrameLen(a);
      assert FrameLen(a + b) == n;
      if !BadLen(n) && |a| >= 4 + n {
        assert (a + b)[4..4 + n] == a[4..4 + n];
        assert (a + b)[4 + n..] == a[4 + n..] + b;
        var log' := log + [a[4..4 + n]];
        if !kills(log') { FeedSplit(log', a[4 + n..], b, kills); }
      }
    }
  }

  /** Any sequence of reads gives what one parse of all its bytes gives. */
  lemma {:induction false} DeliverAllIsFeed(i: Inbox, chunks: seq<Bytes>, kills: Verdict)
    requires Settled(i, kills) && !i.closed
    ensures Same(DeliverAll(i, chunks, kills), Feed(i.log, i.rest + Concat(chunks), kills))
  {
    if chunks == [] {
      assert i.rest + Concat(chunks) == i.rest;
    } else {
      var m := |chunks| - 1;
      DeliverAllIsFeed(i, chunks[..m], kills);
      FeedSplit(i.log, i.rest + Concat(chunks[..m]), chunks[m], kills);
      assert i.rest + Concat(chunks[..m]) + chunks[m] == i.rest + Concat(chunks);
    }
  }

  /** Chunking invariance: two ways of cutting one stream into reads dispatch the same
      frames, reject at the same frame and leave the same bytes unconsumed. */
  lemma ChunkingInvariance(i: Inbox, one: seq<Bytes>, two: seq<Bytes>, kills: Verdict)
    requires Settled(i, kills) && Concat(one) == Concat(two)
    ensures Same(DeliverAll(i, one, kills), DeliverAll(i, two, kills))
  {
    if i.closed {
      ClosedStays(i, one, kills);
      ClosedStays(i, two, kills);
    } else {
      DeliverAllIsFeed(i, one, kills);
      DeliverAllIsFeed(i, two, kills);
    }
  }

  const NEW := Inbox([], false, [])

  /** Every inbox that reads have made of a new one is settled. */
  lemma {:induction false} ReadsSettle(chunks: seq<Bytes>, kills: Verdict)
    ensures Settled(DeliverAll(NEW, chunks, kills), kills)
  {
    if chunks != [] {
      var i, d := DeliverAll(NEW, chunks[..|chunks| - 1], kills), chunks[|chunks| - 1];
      FeedSettles(i.log, i.rest + d, kills);
    }
  }

  /** So after any earlier reads, it does not matter how what follows is cut. */
  lemma ChunkingAnytime(before: seq<Bytes>, one: seq<Bytes>, two: seq<Bytes>, kills: Verdict)
    requires Concat(one) == Concat(two)
    ensures var i := DeliverAll(NEW, before, kills); Same(DeliverAll(i, one, kills), DeliverAll(i, two, kills))
  {
    ReadsSettle(before, kills);
    ChunkingInvariance(DeliverAll(NEW, before, kills), one, two, kills);
  }

  lemma {:induction false} ClosedStays(i: Inbox, chunks: seq<Bytes>, kills: Verdict)
    requires i.closed
    ensures DeliverAll(i, chunks, kills) == i
  {
    if chunks != [] { ClosedStays(i, chunks[..|chunks| - 1], kills); }
  }

  lemma {:induction false} DeliverFirst(i: Inbox, d: Bytes, more: seq<Bytes>, kills: Verdict)
    ensures DeliverAll(i, [d] + more, kills) == DeliverAll(Deliver(i, d, kills), more, kills)
  {
    hide Deliver;
    if more == [] {
      assert [d] + more == [d] && [d][..0] == [];
    } else {
      var m := |more| - 1;
      assert ([d] + more)[..|more|] == [d] + more[..m] && ([d] + more)[|more|] == more[m];
      DeliverFirst(i, d, more[..m], kills);
    }
  }

  // ---- a stream made of whole frames ----

  predicate Sendable(payload: Bytes) { 0 < |payload| <= MAX_FRAME }

  function Stream(payloads: seq<Bytes>): Bytes
  {
    if payloads == [] then [] else Frame(payloads[0]) + Stream(payloads[1..])
  }

  const NEVER: Verdict := (log: seq<Bytes>) => false

  lemma FrameHead(p: Bytes, tail: Bytes)
    requires Sendable(p)
    ensures |Frame(p) + tail| >= 4 && FrameLen(Frame(p) + tail) == |p|
    ensures (Frame(p) + tail)[4..4 + |p|] == p && (Frame(p) + tail)[4 + |p|..] == tail
  {
    var s, h := Frame(p) + tail, Be32(|p|);
    assert s == h + p + tail;
    assert s[0..4] == h;
    Get32At(s, 0, h);
    Get32Be32(|p|);
  }

  /** What a receiver makes of a part of the first frame, or of all of it and more. */
  lemma FeedFrame(log: seq<Bytes>, p: Bytes, tail: Bytes, got: Bytes)
    requires Sendable(p) && got <= Frame(p) + tail
    ensures |got| < 4 + |p| ==> Feed(log, got, NEVER) == Inbox(log, false, got)
    ensures |got| >= 4 + |p| ==>
              got[4 + |p|..] <= tail && Feed(log, got, NEVER) == Feed(log + [p], got[4 + |p|..], NEVER)
  {
    hide Get32, Be32;
    var s := Frame(p) + tail;
    FrameHead(p, tail);
    if |got| >= 4 {
      assert got[0..4] == s[0..4];
      Get32At(got, 0, s[0..4]);
      Get32At(s, 0, s[0..4]);
      if |got| >= 4 + |p| { assert got[4..4 + |p|] == s[4..4 + |p|]; }
    }
  }

  /** `i` is what a receiver has after the first `k` frames and a part of what follows. */
  ghost predicate Through(i: Inbox, log: seq<Bytes>, payloads: seq<Bytes>, k: nat)
  {
    k <= |payloads| && !i.closed && i.log == log + payloads[..k] && i.rest <= Stream(payloads[k..])
  }

  lemma ThroughNone(log: seq<Bytes>, payloads: seq<Bytes>, got: Bytes)
    requires got <= Stream(payloads)
    ensures Through(Inbox(log, false, got), log, payloads, 0)
  {
    assert log + payloads[..0] == log && payloads[0..] == payloads;
  }

  lemma ThroughOneMore(i: Inbox, log: seq<Bytes>, payloads: seq<Bytes>, k: nat)
    requires |payloads| > 0 && Through(i, log + [payloads[0]], payloads[1..], k)
    ensures Through(i, log, payloads, k + 1)
  {
    assert log + [payloads[0]] + payloads[1..][..k] == log + payloads[..k + 1];
    assert payloads[1..][k..] == payloads[k + 1..];
  }

  /** A receiver that has got any prefix of a stream of whole frames has dispatched exactly
      the first `k` frames of it, in order and untorn, and has rejected nothing. */
  lemma {:induction false} PrefixOfStream(log: seq<Bytes>, payloads: seq<Bytes>, got: Bytes) returns (k: nat)
    requires forall p | p in payloads :: Sendable(p)
    requires got <= Stream(payloads)
    ensures Through(Feed(log, got, NEVER), log, payloads, k)
    decreases |payloads|
  {
    hide Get32, Be32;
    if payloads == [] {
      k := 0;
      ThroughNone(log, payloads, got);
    } else {
      var p, tail := payloads[0], Stream(payloads[1..]);
      FeedFrame(log, p, tail, got);
      if |got| < 4 + |p| {
        k := 0;
        ThroughNone(log, payloads, got);
      } else {
        k := PrefixOfStream(log + [p], payloads[1..], got[4 + |p|..]);
        ThroughOneMore(Feed(log, got, NEVER), log, payloads, k);
        k := k + 1;
      }
    }
  }

  /** A whole stream parses back to exactly its frames. */
  lemma {:induction false} WholeStream(log: seq<Bytes>, payloads: seq<Bytes>)
    requires forall p | p in payloads :: Sendable(p)
    ensures Feed(log, Stream(payloads), NEVER) == Inbox(log + payloads, false, [])
    decreases |payloads|
  {
    hide Get32, Be32;
    if payloads == [] {
      assert log + payloads == log;
    } else {
      var p, tail := payloads[0], Stream(payloads[1..]);
      FeedFrame(log, p, tail, Stream(payloads));
      FrameHead(p, tail);
      WholeStream(log + [p], payloads[1..]);
      assert log + [p] + payloads[1..] == log + payloads;
    }
  }

  /** After whole frames, a length of 0 or of more than 2^20 closes the connection with nothing more
      dispatched; any other waits for its payload, and then dispatches it. */
  lemma NextLength(payloads: seq<Bytes>, n: nat, more: Bytes)
    requires (forall p | p in payloads :: Sendable(p)) && n < 0x1_0000_0000
    ensures var i := Feed([], Stream(payloads) + (Be32(n) + more), NEVER);
            && (i.closed && i.log == payloads <==> n == 0 || n > 0x10_0000)
            && (0 < n <= 0x10_0000 ==>
                  if |more| < n then !i.closed && i.log == payloads && i.rest == Be32(n) + more
                  else payloads + [more[..n]] <= i.log)
  {
    hide Be32, Stream, Feed;
    var tail := Be32(n) + more;
    WholeStream([], payloads);
    assert [] + payloads == payloads && [] + tail == tail;
    FeedSplit([], Stream(payloads), tail, NEVER);
    FeedLength(payloads, n, more);
  }

  lemma FeedLength(log: seq<Bytes>, n: nat, more: Bytes)
    requires n < 0x1_0000_0000
    ensures var i := Feed(log, Be32(n) + more, NEVER);
            && (n == 0 || n > 0x10_0000 ==> i.closed && i.log == log)
            && (0 < n <= 0x10_0000 ==>
                  if |more| < n then i == Inbox(log, false, Be32(n) + more) else log + [more[..n]] <= i.log)
  {
    hide Be32, Get32;
    var tail := Be32(n) + more;
    assert tail[0..4] == Be32(n) && tail[4..] == more;
    Get32At(tail, 0, Be32(n));
    Get32Be32(n);
    if 0 < n <= 0x10_0000 && |more| >= n {
      assert tail[4..4 + n] == more[..n];
      FeedLogs(log + [more[..n]], tail[4 + n..]);
    }
  }

  /** What was dispatched stays dispatched. */
  lemma {:induction false} FeedLogs(log: seq<Bytes>, s: Bytes)
    ensures log <= Feed(log, s, NEVER).log
    decreases |s|
  {
    if |s| >= 4 && !BadLen(FrameLen(s)) && |s| >= 4 + FrameLen(s) {
      FeedLogs(log + [s[4..4 + FrameLen(s)]], s[4 + FrameLen(s)..]);
    }
  }
}
