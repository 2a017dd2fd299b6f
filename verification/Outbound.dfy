/** A connection's outbound byte queue in the epoll reactor (servers/go-epoll): write at once
    when nothing is queued, else queue behind; shed a frame when too much is queued. */
module Outbound {
  import opened Wire
  import opened Framing

  const WBUF_CAP := 0x10_0000

  /** What the kernel says to one write: it accepts up to `n` bytes, would block, was
      interrupted, or fails for good. */
  datatype WriteResult = Accept(n: nat) | Again | Intr | Hard

  /** `sent` is what the kernel has accepted, `script` its future answers (when they run out,
      it would block), `admitted` the frames taken in so far. */
  datatype Out = Out(
    sent: Bytes, wbuf: Bytes, wantOut: bool, closed: bool, script: seq<WriteResult>, admitted: seq<Bytes>)

  const FRESH := Out([], [], false, false, [], [])

  function Answer(script: seq<WriteResult>): WriteResult { if script == [] then Again else script[0] }
  function Later(script: seq<WriteResult>): seq<WriteResult> { if script == [] then [] else script[1..] }

  /** The number of bytes a write of `len` bytes transfers. */
  function Taken(w: WriteResult, len: nat): (k: nat)
    ensures k <= len
  {
    if w.Accept? then Min(w.n, len) else 0
  }

  function Enqueue(o: Out, b: Bytes): Out
  {
    if o.wbuf == [] then
      var w := Answer(o.script);
      var o' := o.(script := Later(o.script));
      if w.Hard? then o'.(closed := true)
      else
        var k := Taken(w, |b|);
        if k == |b| then o'.(sent := o.sent + b, admitted := o.admitted + [b])
        else o'.(sent := o.sent + b[..k], wbuf := b[k..], wantOut := true, admitted := o.admitted + [b])
    else if |o.wbuf| >= WBUF_CAP then o
    else o.(wbuf := o.wbuf + b, wantOut := true, admitted := o.admitted + [b])
  }

  function Flush(o: Out): Out
    decreases |o.script|, |o.wbuf|
  {
    if o.wbuf == [] then o.(wantOut := false)
    else
      var w := Answer(o.script);
      var o' := o.(script := Later(o.script));
      if w.Hard? then o'.(closed := true)
      else if w.Intr? then Flush(o')
      else
        var k := Taken(w, |o.wbuf|);
        if k == 0 then o' else Flush(o'.(sent := o.sent + o.wbuf[..k], wbuf := o.wbuf[k..]))
  }

  // ---- what one call does, from the kernel's answers alone ----

  /** A frame that is offered to an open connection has room unless a megabyte is queued already, or
      nothing is queued and the write fails for good. */
  predicate HasRoom(o: Out)
  {
    !o.closed && |o.wbuf| < 0x10_0000 && !(o.wbuf == [] && o.script != [] && o.script[0].Hard?)
  }

  /** With room the frame is taken in whole, behind what was there; without, the bytes are as they were.
      The kernel is asked once if nothing was queued, and not at all otherwise. */
  lemma EnqueueTakes(o: Out, b: Bytes)
    requires !o.closed
    ensures var e := Enqueue(o, b);
            && (if HasRoom(o) then e.admitted == o.admitted + [b] && e.sent + e.wbuf == o.sent + o.wbuf + b
                else e.admitted == o.admitted && e.sent == o.sent && e.wbuf == o.wbuf)
            && (e.closed <==> o.wbuf == [] && o.script != [] && o.script[0].Hard?)
            && (o.wbuf != [] ==> e.sent == o.sent && e.script == o.script)
            && (o.wbuf == [] ==>
                  && e.script == (if o.script == [] then [] else o.script[1..])
                  && e.sent == o.sent +
                       if o.script != [] && o.script[0].Accept? then b[..Min(o.script[0].n, |b|)] else [])
  {
    var k := Taken(Answer(o.script), |b|);
    assert b[..k] + b[k..] == b;
    if o.wbuf == [] {
      assert o.sent + o.wbuf == o.sent && o.sent + b[..k] + b[k..] == o.sent + b && o.sent + b + [] == o.sent + b;
    } else {
      assert o.sent + (o.wbuf + b) == o.sent + o.wbuf + b;
    }
  }

  /** An answer that ends a run of writes. */
  predicate Stops(w: WriteResult) { w.Again? || w.Hard? || w == Accept(0) }

  /** The first answer of `script` that ends a run of writes is number `m`, or there is none and `m` is how
      many there are. */
  predicate StopsAt(script: seq<WriteResult>, m: nat)
  {
    m <= |script| && (forall i | 0 <= i < m :: !Stops(script[i])) && (m < |script| ==> Stops(script[m]))
  }

  /** How many bytes these answers accept. */
  function Accepts(ws: seq<WriteResult>): nat
  {
    if ws == [] then 0 else (if ws[0].Accept? then ws[0].n else 0) + Accepts(ws[1..])
  }

  /** A writable event sends what the kernel accepts before it stops, up to all that is queued. If that is
      all, write interest ends and no answer is used up beyond those needed; otherwise the answers are
      used up through the one that stopped it, and the connection is closed exactly if that one failed. */
  predicate SentUpTo(o: Out, f: Out, m: nat)
    requires m <= |o.script|
  {
    var t := Accepts(o.script[..m]);
    && Shifted(o, f, Min(t, |o.wbuf|))
    && if t >= |o.wbuf| then !f.wantOut && f.closed == o.closed && JustEnough(o.script, f.script, |o.wbuf|)
       else f.wantOut == o.wantOut && Stopped(o, f, m)
  }

  /** The first `k` queued bytes have been sent. */
  predicate Shifted(o: Out, f: Out, k: nat)
    requires k <= |o.wbuf|
  {
    f.sent == o.sent + o.wbuf[..k] && f.wbuf == o.wbuf[k..] && f.admitted == o.admitted
  }

  predicate Stopped(o: Out, f: Out, m: nat)
    requires m <= |o.script|
  {
    && f.script == o.script[Min(m + 1, |o.script|)..]
    && (f.closed <==> o.closed || (m < |o.script| && o.script[m].Hard?))
  }

  /** The answers used up accept `n` bytes, and all but the last of them do not. */
  predicate JustEnough(script: seq<WriteResult>, later: seq<WriteResult>, n: nat)
  {
    |later| <= |script| &&
    var j := |script| - |later|;
    && later == script[j..] && Accepts(script[..j]) >= n && (j > 0 ==> Accepts(script[..j - 1]) < n)
  }

  lemma {:induction false} FlushSends(o: Out, m: nat)
    requires StopsAt(o.script, m)
    ensures SentUpTo(o, Flush(o), m)
    decreases |o.script|
  {
    if o.wbuf == [] {
      assert o.script[..0] == [] && o.script[0..] == o.script && Min(Accepts(o.script[..m]), 0) == 0;
    } else if m == 0 {
      assert o.script[..0] == [] && o.wbuf[..0] == [];
    } else {
      var w, k := o.script[0], Taken(o.script[0], |o.wbuf|);
      assert !Stops(w);
      var o' := o.(script := o.script[1..], sent := o.sent + o.wbuf[..k], wbuf := o.wbuf[k..]);
      assert k == 0 ==> o' == o.(script := o.script[1..]);
      FlushSends(o', m - 1);
      FlushStep(o, o', Flush(o'), m, k);
    }
  }

  /** One more answer before it, that does not stop. */
  lemma FlushStep(o: Out, o': Out, f: Out, m: nat, k: nat)
    requires 0 < m <= |o.script| && k == Taken(o.script[0], |o.wbuf|) && 0 < |o.wbuf|
    requires Shifted(o, o', k) && o' == o.(script := o.script[1..], sent := o'.sent, wbuf := o'.wbuf)
    requires SentUpTo(o', f, m - 1)
    ensures SentUpTo(o, f, m)
  {
    hide Accepts, JustEnough, Shifted, Stopped, Taken, Min;
    var t, u := Accepts(o'.script[..m - 1]), Accepts(o.script[..m]);
    ShiftedLess(o, o', k);
    AcceptsHead(o.script, m);
    MinSum(o.script[0], k, t, |o.wbuf|);
    assert Shifted(o, f, Min(u, |o.wbuf|)) by { ShiftedTwice(o, o', f, k, Min(t, |o'.wbuf|)); }
    if t >= |o'.wbuf| { OneMoreUsed(o.script, f.script, |o.wbuf|); } else { StoppedLater(o, o', f, m); }
  }

  lemma ShiftedLess(o: Out, f: Out, k: nat)
    requires k <= |o.wbuf| && Shifted(o, f, k)
    ensures |f.wbuf| == |o.wbuf| - k
  {
  }

  lemma MinSum(w: WriteResult, k: nat, t: nat, len: nat)
    requires k == Taken(w, len)
    ensures var n := if w.Accept? then w.n else 0;
            && k <= len && 0 <= Min(t, len - k) <= len - k
            && k + Min(t, len - k) == Min(n + t, len) && (t >= len - k <==> n + t >= len)
  {
  }

  lemma ShiftedTwice(o: Out, o': Out, f: Out, k: nat, l: nat)
    requires k <= |o.wbuf| && l <= |o.wbuf| - k && Shifted(o, o', k) && Shifted(o', f, l)
    ensures Shifted(o, f, k + l)
  {
    TwoTakes(o.sent, o.wbuf, k, l);
  }

  lemma TwoTakes(sent: Bytes, wbuf: Bytes, k: nat, l: nat)
    requires k <= |wbuf| && l <= |wbuf| - k
    ensures sent + wbuf[..k] + wbuf[k..][..l] == sent + wbuf[..k + l] && wbuf[k..][l..] == wbuf[k + l..]
  {
    assert wbuf[..k] + wbuf[k..][..l] == wbuf[..k + l];
  }

  lemma StoppedLater(o: Out, o': Out, f: Out, m: nat)
    requires 0 < m <= |o.script| && o'.script == o.script[1..] && o'.closed == o.closed && Stopped(o', f, m - 1)
    ensures Stopped(o, f, m)
  {
  }

  lemma OneMoreUsed(script: seq<WriteResult>, later: seq<WriteResult>, n: nat)
    requires script != [] && n > 0
    requires JustEnough(script[1..], later, n - Taken(script[0], n))
    ensures JustEnough(script, later, n)
  {
    var j := |script| - |later|;
    AcceptsHead(script, j);
    if j > 1 { AcceptsHead(script, j - 1); }
    assert script[1..][j - 1..] == script[j..];
  }

  lemma AcceptsHead(ws: seq<WriteResult>, m: nat)
    requires 0 < m <= |ws|
    ensures Accepts(ws[..m]) == (if ws[0].Accept? then ws[0].n else 0) + Accepts(ws[1..][..m - 1])
  {
    assert ws[..m][1..] == ws[1..][..m - 1];
  }

  // ---- what every schedule of enqueues and flushes keeps ----

  predicate Queued(o: Out)
  {
    && o.sent + o.wbuf == Concat(o.admitted)
    && (!o.closed ==> (o.wantOut <==> o.wbuf != []))
  }

  lemma EnqueueQueued(o: Out, b: Bytes)
    requires Queued(o)
    ensures Queued(Enqueue(o, b))
    ensures Enqueue(o, b).admitted in {o.admitted, o.admitted + [b]}
  {
    hide Concat;
    ConcatPush(o.admitted, b);
    var k := Taken(Answer(o.script), |b|);
    assert b[..k] + b[k..] == b;
    if o.wbuf == [] {
      assert o.sent + o.wbuf == o.sent;
      assert o.sent + b[..k] + b[k..] == o.sent + b;
      assert o.sent + b + [] == o.sent + b;
    } else {
      assert o.sent + (o.wbuf + b) == o.sent + o.wbuf + b;
    }
  }

  lemma {:induction false} FlushQueued(o: Out)
    requires Queued(o) && !o.closed
    ensures Queued(Flush(o))
    ensures Flush(o).admitted == o.admitted && |Flush(o).wbuf| <= |o.wbuf|
    decreases |o.script|, |o.wbuf|
  {
    hide Concat;
    if o.wbuf != [] {
      var w := Answer(o.script);
      var o' := o.(script := Later(o.script));
      var k := Taken(w, |o.wbuf|);
      if w.Intr? {
        FlushQueued(o');
      } else if k > 0 {
        var o'' := o'.(sent := o.sent + o.wbuf[..k], wbuf := o.wbuf[k..]);
        assert o''.sent + o''.wbuf == o.sent + o.wbuf;
        if o''.wbuf == [] { assert Flush(o'') == o''.(wantOut := false); } else { FlushQueued(o''); }
      }
    }
  }

  datatype Op = Offer(frame: Bytes) | Writable

  /** The reactor leaves a closed connection alone. */
  function Step(o: Out, op: Op): Out
  {
    if o.closed then o else match op case Offer(b) => Enqueue(o, b) case Writable => Flush(o)
  }

  function Run(o: Out, ops: seq<Op>): Out
  {
    if ops == [] then o else Step(Run(o, ops[..|ops| - 1]), ops[|ops| - 1])
  }

  function Offered(ops: seq<Op>): seq<Bytes>
  {
    if ops == [] then []
    else
      var op := ops[|ops| - 1];
      Offered(ops[..|ops| - 1]) + if op.Offer? then [op.frame] else []
  }

  predicate Subsequence(a: seq<Bytes>, b: seq<Bytes>)
  {
    if b == [] then a == []
    else
      || Subsequence(a, b[..|b| - 1])
      || (a != [] && a[|a| - 1] == b[|b| - 1] && Subsequence(a[..|a| - 1], b[..|b| - 1]))
  }

  lemma SubsequencePush(a: seq<Bytes>, b: seq<Bytes>, x: Bytes)
    requires Subsequence(a, b)
    ensures Subsequence(a, b + [x]) && Subsequence(a + [x], b + [x])
  {
    assert (b + [x])[..|b|] == b && (a + [x])[..|a|] == a;
  }

  /** One step keeps the queue in order; an offer admits the frame or nothing. */
  lemma StepQueued(o: Out, op: Op, maxLen: nat)
    requires Queued(o) && |o.wbuf| <= WBUF_CAP - 1 + maxLen && (op.Offer? ==> |op.frame| <= maxLen)
    ensures Queued(Step(o, op)) && |Step(o, op).wbuf| <= WBUF_CAP - 1 + maxLen
    ensures Step(o, op).admitted == o.admitted || (op.Offer? && Step(o, op).admitted == o.admitted + [op.frame])
  {
    hide Enqueue, Flush, Queued;
    if !o.closed {
      match op {
        case Offer(b) => EnqueueQueued(o, b); EnqueueBound(o, b, maxLen);
        case Writable => FlushQueued(o);
      }
    }
  }

  /** For every pattern of partial writes, interruptions, blocked writes and sheds: the kernel
      has accepted a prefix of whole admitted frames in offer order, the rest of them is queued,
      write interest is armed exactly while something is queued, and the queue is bounded. */
  lemma {:induction false} RunQueued(script: seq<WriteResult>, ops: seq<Op>, maxLen: nat)
    requires forall op | op in ops && op.Offer? :: |op.frame| <= maxLen
    ensures var o := Run(FRESH.(script := script), ops);
            && Queued(o)
            && Subsequence(o.admitted, Offered(ops))
            && |o.wbuf| <= WBUF_CAP - 1 + maxLen
  {
    if ops == [] {
      assert Concat([]) == [];
    } else {
      hide Step, Queued, Subsequence;
      var m := |ops| - 1;
      RunQueued(script, ops[..m], maxLen);
      var o, op := Run(FRESH.(script := script), ops[..m]), ops[m];
      assert op in ops;
      StepQueued(o, op, maxLen);
      if op.Offer? {
        SubsequencePush(o.admitted, Offered(ops[..m]), op.frame);
      } else {
        assert Offered(ops) == Offered(ops[..m]);
      }
    }
  }

  /** The frames that found room, in order. */
  function TakenIn(script: seq<WriteResult>, ops: seq<Op>): seq<Bytes>
  {
    if ops == [] then []
    else
      var m := |ops| - 1;
      TakenIn(script, ops[..m])
      + if ops[m].Offer? && HasRoom(Run(FRESH.(script := script), ops[..m])) then [ops[m].frame] else []
  }

  /** In every run exactly the frames that find room are admitted; so all that were offered are if and only
      if each of them found room. */
  lemma {:induction false} RunAdmits(script: seq<WriteResult>, ops: seq<Op>)
    ensures var o := Run(FRESH.(script := script), ops);
            && o.admitted == TakenIn(script, ops) && |o.admitted| <= |Offered(ops)|
            && (o.admitted == Offered(ops) <==>
                  forall m | 0 <= m < |ops| && ops[m].Offer? :: HasRoom(Run(FRESH.(script := script), ops[..m])))
  {
    if ops != [] {
      var m := |ops| - 1;
      RunAdmits(script, ops[..m]);
      forall j | 0 <= j <= m ensures ops[..m][..j] == ops[..j] { }
      var o := Run(FRESH.(script := script), ops[..m]);
      if !o.closed && ops[m].Offer? { EnqueueTakes(o, ops[m].frame); }
      if !o.closed && ops[m].Writable? { FlushAdmits(o); }
      assert ops[..m] + [ops[m]] == ops;
      hide HasRoom, Enqueue, Flush;
      SameAgain(TakenIn(script, ops[..m]), Offered(ops[..m]), if ops[m].Offer? then [ops[m].frame] else [], HasRoom(o));
    }
  }

  lemma SameAgain(a: seq<Bytes>, b: seq<Bytes>, x: seq<Bytes>, room: bool)
    requires |a| <= |b| && |x| <= 1
    ensures a + (if room then x else []) == b + x <==> a == b && (x == [] || room)
  {
    if a + x == b + x { assert (a + x)[..|a|] == a && (b + x)[..|b|] == b; }
  }

  lemma FlushAdmits(o: Out)
    ensures Flush(o).admitted == o.admitted
  {
    var m := StopOf(o.script);
    FlushSends(o, m);
  }

  function StopOf(script: seq<WriteResult>): (m: nat)
    ensures StopsAt(script, m)
  {
    if script == [] || Stops(script[0]) then 0 else StopOf(script[1..]) + 1
  }

  lemma EnqueueBound(o: Out, b: Bytes, maxLen: nat)
    requires |o.wbuf| <= WBUF_CAP - 1 + maxLen && |b| <= maxLen
    ensures |Enqueue(o, b).wbuf| <= WBUF_CAP - 1 + maxLen
  {
  }

  // ---- what the peer makes of it ----

  function Frames(payloads: seq<Bytes>): seq<Bytes>
  {
    seq(|payloads|, i requires 0 <= i < |payloads| => Frame(payloads[i]))
  }

  lemma {:induction false} StreamPush(ps: seq<Bytes>, p: Bytes)
    ensures Stream(ps + [p]) == Stream(ps) + Frame(p)
  {
    hide Frame;
    if ps == [] {
      assert (ps + [p])[1..] == [];
    } else {
      assert (ps + [p])[1..] == ps[1..] + [p];
      StreamPush(ps[1..], p);
    }
  }

  lemma {:induction false} ConcatFrames(ps: seq<Bytes>)
    ensures Concat(Frames(ps)) == Stream(ps)
  {
    hide Frame;
    if ps != [] {
      var m := |ps| - 1;
      ConcatFrames(ps[..m]);
      assert ps == ps[..m] + [ps[m]];
      assert Frames(ps)[..m] == Frames(ps[..m]);
      StreamPush(ps[..m], ps[m]);
    }
  }

  /** A peer that reads whatever the kernel accepted sees whole admitted payloads, in order,
      untorn, and never a bad length: `k` of them and a part of the next. */
  lemma PeerSeesWholeFrames(o: Out, payloads: seq<Bytes>) returns (k: nat)
    requires Queued(o) && o.admitted == Frames(payloads)
    requires forall p | p in payloads :: Sendable(p)
    ensures Through(Feed([], o.sent, NEVER), [], payloads, k)
    ensures o.wbuf == [] ==> Feed([], o.sent, NEVER) == Inbox(payloads, false, [])
  {
    ConcatFrames(payloads);
    assert o.sent <= Stream(payloads);
    k := PrefixOfStream([], payloads, o.sent);
    if o.wbuf == [] {
      assert o.sent == Stream(payloads);
      WholeStream([], payloads);
      assert [] + payloads == payloads;
    }
  }
}
