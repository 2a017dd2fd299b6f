/** What one readiness event takes from a socket in the epoll reactor (servers/go-epoll): it reads
    until the socket is drained, and only then looks at what it got. */
module Inbound {
  import opened Wire
  import opened Framing

  const READ_CHUNK := 65536

  /** The kernel's answer to one read. No bytes at all means that the peer closed. */
  datatype ReadResult = Data(bytes: Bytes) | Again | Intr | Error

  /** What one readiness event takes from the socket: the bytes, whether the connection is lost,
      and the answers left for later events. */
  datatype Drained = Drained(data: Bytes, lost: bool, later: seq<ReadResult>)

  /** Reading on with `got` in the buffer. */
  function DrainFrom(got: Bytes, script: seq<ReadResult>): Drained
    decreases |script|
  {
    if script == [] then Drained(got, false, [])
    else match script[0]
      case Again => Drained(got, false, script[1..])
      case Intr => DrainFrom(got, script[1..])
      case Error => Drained(got, true, script[1..])
      case Data(d) =>
        if |d| == 0 then Drained(got, true, script[1..])
        else if |d| < READ_CHUNK then Drained(got + d, false, script[1..])
        else DrainFrom(got + d, script[1..])
  }

  function Drain(script: seq<ReadResult>): Drained { DrainFrom([], script) }

  /** What is read is appended to what was there, and does not depend on it. */
  lemma {:induction false} DrainAppends(pre: Bytes, got: Bytes, script: seq<ReadResult>)
    ensures DrainFrom(pre + got, script) == var d := DrainFrom(got, script); d.(data := pre + d.data)
    decreases |script|
  {
    if script != [] {
      DrainAppends(pre, got, script[1..]);
      if script[0].Data? {
        var d := script[0].bytes;
        assert pre + (got + d) == pre + got + d;
        DrainAppends(pre, got + d, script[1..]);
      }
    }
  }

  // ---- what one event takes, from the answers alone ----

  /** An interrupted read is made again, and so is one that filled the read buffer. */
  predicate GoesOn(r: ReadResult) { r.Intr? || (r.Data? && |r.bytes| >= 0x1_0000) }

  /** The first answer that ends the event is number `m`, or there is none and `m` is how many there are. */
  predicate EndsAt(script: seq<ReadResult>, m: nat)
  {
    m <= |script| && (forall i | 0 <= i < m :: GoesOn(script[i])) && (m < |script| ==> !GoesOn(script[m]))
  }

  function EndOf(script: seq<ReadResult>): (m: nat)
    ensures EndsAt(script, m)
  {
    if script == [] || !GoesOn(script[0]) then 0 else EndOf(script[1..]) + 1
  }

  /** The bytes of these reads. */
  function DataIn(rs: seq<ReadResult>): Bytes
  {
    if rs == [] then [] else (if rs[0].Data? then rs[0].bytes else []) + DataIn(rs[1..])
  }

  /** The answers that one event uses up. */
  function Used(script: seq<ReadResult>): (n: nat)
    ensures n <= |script|
  {
    Min(EndOf(script) + 1, |script|)
  }

  /** The event ends with the peer's end of file, or with an error. */
  predicate LosesIt(script: seq<ReadResult>)
  {
    var m := EndOf(script);
    m < |script| && (script[m].Error? || script[m] == Data([]))
  }

  /** An event takes all bytes up to the answer that ends it, that one's included, and the connection is lost
      exactly if that answer is an error or the end of file. */
  lemma {:induction false} DrainReads(got: Bytes, script: seq<ReadResult>)
    ensures DrainFrom(got, script) ==
              Drained(got + DataIn(script[..Used(script)]), LosesIt(script), script[Used(script)..])
    decreases |script|
  {
    hide Used, LosesIt, DataIn;
    if script == [] {
      NoneUsed(script);
    } else {
      UsedHead(script);
      var d := if script[0].Data? then script[0].bytes else [];
      if GoesOn(script[0]) {
        assert d == [] ==> got + d == got;
        DrainReads(got + d, script[1..]);
        var more := DataIn(script[1..][..Used(script[1..])]);
        assert got + d + more == got + (d + more);
      } else {
        assert got + (d + []) == got + d;
      }
    }
  }

  lemma NoneUsed(script: seq<ReadResult>)
    requires script == []
    ensures Used(script) == 0 && !LosesIt(script) && DataIn(script[..0]) == []
  {
  }

  /** The first answer is used up, and more of them if it does not end the event. */
  lemma UsedHead(script: seq<ReadResult>)
    requires script != []
    ensures var d, n := if script[0].Data? then script[0].bytes else [], Used(script);
            if GoesOn(script[0]) then
              && n == Used(script[1..]) + 1 && LosesIt(script) == LosesIt(script[1..])
              && DataIn(script[..n]) == d + DataIn(script[1..][..n - 1]) && script[n..] == script[1..][n - 1..]
            else
              && n == 1 && (LosesIt(script) <==> script[0].Error? || script[0] == Data([]))
              && DataIn(script[..n]) == d + []
  {
    var n := Used(script);
    assert script[..n][1..] == script[1..][..n - 1];
    if !GoesOn(script[0]) { assert script[1..][..0] == []; }
  }
}
