/** The wire format (PROTOCOL.md): big-endian integers, the four messages and the
    client's decoder. A Byte is an int in 0..255; positions are unbounded ints here and
    are cut to 32 bits only where a server cuts them. */
module Wire {

  type Byte = x: int | 0 <= x < 256
  type Bytes = seq<Byte>

  const TWO31 := 0x8000_0000
  const TWO32 := 0x1_0000_0000
  const MAX_FRAME := 0x10_0000

  const MSG_JOIN: Byte := 0x01
  const MSG_MOVE: Byte := 0x02
  const MSG_JOINED: Byte := 0x81
  const MSG_SNAPSHOT: Byte := 0x82

  /** The low 32 bits of `v`, most significant byte first (two's complement for `v < 0`). */
  function Be32(v: int): (b: Bytes)
    ensures |b| == 4
  {
    [v / 256 / 256 / 256 % 256, v / 256 / 256 % 256, v / 256 % 256, v % 256]
  }

  function Be16(v: int): (b: Bytes)
    ensures |b| == 2
  {
    [v / 256 % 256, v % 256]
  }

  function Get32(b: Bytes, o: nat): nat
    requires o + 4 <= |b|
  {
    (b[o] as int) * 0x100_0000 + (b[o + 1] as int) * 0x1_0000 + (b[o + 2] as int) * 256 + b[o + 3] as int
  }

  function Get16(b: Bytes, o: nat): nat
    requires o + 2 <= |b|
  {
    (b[o] as int) * 256 + b[o + 1] as int
  }

  function AsI16(v: int): int { if v >= 0x8000 then v - 0x1_0000 else v }

  /** Reduction into the signed 32-bit range. */
  function Wrap32(v: int): (r: int)
    ensures -TWO31 <= r < TWO31
  {
    var u := v % TWO32;
    if u >= TWO31 then u - TWO32 else u
  }

  /** Numbers that agree modulo 2^32 wrap to the same one, which is in range. */
  lemma WrapSame(v: int, w: int)
    ensures Wrap32(v) == Wrap32(w) <==> v % 0x1_0000_0000 == w % 0x1_0000_0000
    ensures -0x8000_0000 <= v < 0x8000_0000 ==> Wrap32(v) == v
  {
    if -0x8000_0000 <= v < 0 { assert (v + TWO32) % TWO32 == v + TWO32; }
  }

  lemma SameSum(a: int, b: int, d: int)
    requires a % TWO32 == b % TWO32
    ensures (a + d) % TWO32 == (b + d) % TWO32
  {
  }

  /** Wrapping at every step or once at the end. */
  lemma WrapSum(v: int, w: int)
    ensures Wrap32(Wrap32(v) + w) == Wrap32(v + w)
  {
    WrapSame(Wrap32(v), v);
    SameSum(Wrap32(v), v, w);
    WrapSame(Wrap32(v) + w, v + w);
  }

  /** The four digits of `v` in base 256, and what is left above them. */
  lemma Digits(v: int)
    ensures var q1, q2, q3 := v / 256, v / 256 / 256, v / 256 / 256 / 256;
            v % TWO32 == (q3 % 256) * 0x100_0000 + (q2 % 256) * 0x1_0000 + (q1 % 256) * 256 + v % 256
  {
    var q1, q2, q3 := v / 256, v / 256 / 256, v / 256 / 256 / 256;
    var low := (q3 % 256) * 0x100_0000 + (q2 % 256) * 0x1_0000 + (q1 % 256) * 256 + v % 256;
    assert v == TWO32 * (q3 / 256) + low;
    assert 0 <= low < TWO32;
    Residue(v, q3 / 256, low);
  }

  lemma Residue(v: int, q: int, r: int)
    requires v == TWO32 * q + r && 0 <= r < TWO32
    ensures v % TWO32 == r
  {
  }

  lemma Get32Be32(v: int)
    ensures Get32(Be32(v), 0) == v % TWO32
  {
    Digits(v);
  }

  lemma Get16Be16(v: int)
    ensures Get16(Be16(v), 0) == v % 0x1_0000
  {
    assert v == 0x1_0000 * (v / 256 / 256) + (v / 256 % 256) * 256 + v % 256;
  }

  lemma Get32At(b: Bytes, o: nat, w: Bytes)
    requires o + 4 <= |b| && b[o..o + 4] == w
    ensures Get32(b, o) == Get32(w, 0)
  {
    assert w[0] == b[o] && w[1] == b[o + 1] && w[2] == b[o + 2] && w[3] == b[o + 3];
  }

  lemma Get16At(b: Bytes, o: nat, w: Bytes)
    requires o + 2 <= |b| && b[o..o + 2] == w
    ensures Get16(b, o) == Get16(w, 0)
  {
    assert w[0] == b[o] && w[1] == b[o + 1];
  }

  /** Two integers have the same four bytes exactly when they agree modulo 2^32. */
  lemma Be32Equal(v: int, w: int)
    ensures Be32(v) == Be32(w) <==> v % TWO32 == w % TWO32
  {
    Get32Be32(v);
    Get32Be32(w);
    if v % TWO32 == w % TWO32 { SameDigits(Be32(v), Be32(w)); }
  }

  lemma SameDigits(a: Bytes, b: Bytes)
    requires |a| == |b| == 4 && Get32(a, 0) == Get32(b, 0)
    ensures a == b
  {
    SameDigit(a[0], b[0], Low24(a), Low24(b), 0x100_0000);
    SameDigit(a[1], b[1], Low16(a), Low16(b), 0x1_0000);
    SameDigit(a[2], b[2], a[3], b[3], 256);
    assert a == [a[0], a[1], a[2], a[3]] && b == [b[0], b[1], b[2], b[3]];
  }

  function Low16(a: Bytes): int requires |a| == 4 { (a[2] as int) * 256 + a[3] as int }

  function Low24(a: Bytes): int requires |a| == 4 { (a[1] as int) * 0x1_0000 + Low16(a) }

  lemma SameDigit(d: Byte, e: Byte, x: int, y: int, unit: int)
    requires unit in {256, 0x1_0000, 0x100_0000} && 0 <= x < unit && 0 <= y < unit
    requires (d as int) * unit + x == (e as int) * unit + y
    ensures d == e && x == y
  {
  }

  // ---- messages ----

  /** One snapshot entry; `x` and `y` as the server holds them. */
  datatype Entry = Entry(pid: int, x: int, y: int, lastSeq: int)

  function EntryBytes(e: Entry): (b: Bytes)
    ensures |b| == 16
  {
    Be32(e.pid) + Be32(e.x) + Be32(e.y) + Be32(e.lastSeq)
  }

  function EntriesBytes(es: seq<Entry>): (b: Bytes)
    ensures |b| == 16 * |es|
  {
    if es == [] then [] else EntriesBytes(es[..|es| - 1]) + EntryBytes(es[|es| - 1])
  }

  function SnapshotPayload(tick: int, es: seq<Entry>): (b: Bytes)
    ensures |b| == 7 + 16 * |es|
  {
    [MSG_SNAPSHOT] + Be32(tick) + Be16(|es|) + EntriesBytes(es)
  }

  function JoinedPayload(pid: int, room: int): (b: Bytes)
    ensures |b| == 9
  {
    [MSG_JOINED] + Be32(pid) + Be32(room)
  }

  function JoinPayload(room: int): (b: Bytes)
    ensures |b| == 5
  {
    [MSG_JOIN] + Be32(room)
  }

  function MovePayload(seqNo: int, dx: int, dy: int): (b: Bytes)
    ensures |b| == 9
  {
    [MSG_MOVE] + Be32(seqNo) + Be16(dx) + Be16(dy)
  }

  function Frame(payload: Bytes): (b: Bytes)
    ensures |b| == 4 + |payload|
  {
    Be32(|payload|) + payload
  }

  // ---- the client's view of a snapshot ----

  datatype Snapshot = Snapshot(tick: int, entries: seq<Entry>)

  /** What a receiver reads out of an entry: ids and sequence numbers as u32, positions as i32. */
  function Seen(e: Entry): Entry
  {
    Entry(e.pid % TWO32, Wrap32(e.x), Wrap32(e.y), e.lastSeq % TWO32)
  }

  function SeenAll(es: seq<Entry>): (r: seq<Entry>)
    ensures |r| == |es|
  {
    seq(|es|, i requires 0 <= i < |es| => Seen(es[i]))
  }

  function DecodeEntry(b: Bytes, o: nat): Entry
    requires o + 16 <= |b|
  {
    Entry(Get32(b, o), Wrap32(Get32(b, o + 4)), Wrap32(Get32(b, o + 8)), Get32(b, o + 12))
  }

  function Min(a: int, b: int): int { if a <= b then a else b }

  /** The header count, limited to the entries that fit into the payload. */
  function DecodeCount(b: Bytes): nat
    requires |b| >= 7
  {
    Min(Get16(b, 5), (|b| - 7) / 16)
  }

  function DecodeSnapshot(b: Bytes): Snapshot
    requires |b| >= 7
  {
    Snapshot(Get32(b, 1), seq(DecodeCount(b), k requires 0 <= k < DecodeCount(b) => DecodeEntry(b, 7 + 16 * k)))
  }

  lemma EntriesAt(es: seq<Entry>, k: nat)
    requires k < |es|
    ensures EntriesBytes(es)[16 * k..16 * k + 16] == EntryBytes(es[k])
  {
    hide EntryBytes;
    var m := |es| - 1;
    var front, last := EntriesBytes(es[..m]), EntryBytes(es[m]);
    Halves(front, last);
    if k < m {
      EntriesAt(es[..m], k);
      Slice(front, last, 16 * k, 16 * k + 16);
    }
  }

  lemma Halves(a: Bytes, b: Bytes)
    ensures (a + b)[|a|..|a| + |b|] == b
  {
  }

  lemma Slice(a: Bytes, b: Bytes, i: nat, j: nat)
    requires i <= j <= |a|
    ensures (a + b)[i..j] == a[i..j]
  {
  }

  lemma Sub(b: Bytes, o: nat, n: nat, i: nat, j: nat)
    requires i <= j <= n && o + n <= |b|
    ensures b[o..o + n][i..j] == b[o + i..o + j]
  {
    var w, l, r := b[o..o + n], b[o..o + n][i..j], b[o + i..o + j];
    forall k | 0 <= k < j - i ensures l[k] == r[k] {
      assert l[k] == w[i + k] && w[i + k] == b[o + (i + k)];
    }
  }

  lemma FourWords(b: Bytes, o: nat, w0: Bytes, w1: Bytes, w2: Bytes, w3: Bytes)
    requires |w0| == |w1| == |w2| == |w3| == 4
    requires o + 16 <= |b| && b[o..o + 16] == w0 + w1 + w2 + w3
    ensures Get32(b, o) == Get32(w0, 0) && Get32(b, o + 4) == Get32(w1, 0)
    ensures Get32(b, o + 8) == Get32(w2, 0) && Get32(b, o + 12) == Get32(w3, 0)
  {
    var w := b[o..o + 16];
    Sub(b, o, 16, 0, 4);
    Sub(b, o, 16, 4, 8);
    Sub(b, o, 16, 8, 12);
    Sub(b, o, 16, 12, 16);
    assert w[0..4] == w0 && w[4..8] == w1 && w[8..12] == w2 && w[12..16] == w3;
    Get32At(b, o, w0);
    Get32At(b, o + 4, w1);
    Get32At(b, o + 8, w2);
    Get32At(b, o + 12, w3);
  }

  lemma DecodeEntryBytes(b: Bytes, o: nat, e: Entry)
    requires o + 16 <= |b| && b[o..o + 16] == EntryBytes(e)
    ensures DecodeEntry(b, o) == Seen(e)
  {
    hide Get32, Be32, Wrap32;
    FourWords(b, o, Be32(e.pid), Be32(e.x), Be32(e.y), Be32(e.lastSeq));
    Get32Be32(e.pid);
    Get32Be32(e.x);
    Get32Be32(e.y);
    Get32Be32(e.lastSeq);
    WrapResidue(e.x);
    WrapResidue(e.y);
  }

  /** Wrapping looks at the low 32 bits only. */
  lemma WrapResidue(v: int)
    ensures Wrap32(v % TWO32) == Wrap32(v)
  {
  }

  lemma HeaderFields(b: Bytes, tag: Byte, w: Bytes, h: Bytes, tail: Bytes)
    requires |w| == 4 && |h| == 2 && b == [tag] + w + h + tail
    ensures Get32(b, 1) == Get32(w, 0) && Get16(b, 5) == Get16(h, 0) && b[7..] == tail
  {
    assert b[1..5] == w;
    assert b[5..7] == h;
    Get32At(b, 1, w);
    Get16At(b, 5, h);
  }

  /** Decoding an encoded snapshot, for every tick and every number of members: the count
      field is a u16, so the receiver sees the first `n mod 65536` members. */
  lemma SnapshotRoundTrip(tick: int, es: seq<Entry>)
    ensures DecodeSnapshot(SnapshotPayload(tick, es)) == Snapshot(tick % TWO32, SeenAll(es[..|es| % 0x1_0000]))
  {
    var b, tail := SnapshotPayload(tick, es), EntriesBytes(es);
    HeaderFields(b, MSG_SNAPSHOT, Be32(tick), Be16(|es|), tail);
    Get32Be32(tick);
    Get16Be16(|es|);
    var n := |es| % 0x1_0000;
    assert (|b| - 7) / 16 == |es|;
    assert DecodeCount(b) == n;
    forall k | 0 <= k < n ensures DecodeEntry(b, 7 + 16 * k) == Seen(es[k]) {
      EntryInPayload(b, tail, es, k);
    }
    assert DecodeSnapshot(b).entries == SeenAll(es[..n]);
  }

  lemma EntryInPayload(b: Bytes, tail: Bytes, es: seq<Entry>, k: nat)
    requires |b| >= 7 && b[7..] == tail == EntriesBytes(es) && k < |es|
    ensures DecodeEntry(b, 7 + 16 * k) == Seen(es[k])
  {
    hide EntriesBytes, EntryBytes, DecodeEntry, Seen;
    EntriesAt(es, k);
    SubTail(b, 7, 16 * k, 16 * k + 16);
    var o := 7 + 16 * k;
    assert b[o..o + 16] == EntryBytes(es[k]);
    DecodeEntryBytes(b, o, es[k]);
  }

  lemma SubTail(b: Bytes, o: nat, i: nat, j: nat)
    requires i <= j && o + j <= |b|
    ensures b[o..][i..j] == b[o + i..o + j]
  {
    Sub(b, o, |b| - o, i, j);
    assert b[o..o + (|b| - o)] == b[o..];
  }

  /** The client's length check (1..2^20) passes exactly when every member fits the u16 count,
      and then nothing is lost. */
  lemma SnapshotAccepted(tick: int, es: seq<Entry>)
    ensures 0 < |SnapshotPayload(tick, es)| <= MAX_FRAME <==> |es| <= 65535
    ensures |es| <= 65535 ==> DecodeSnapshot(SnapshotPayload(tick, es)).entries == SeenAll(es)
  {
    SnapshotRoundTrip(tick, es);
    if |es| <= 65535 { assert es[..|es|] == es; }
  }

  /** What a server reads out of the two messages of a client. */
  lemma MessageFields(room: int, seqNo: int, dx: int, dy: int)
    ensures Get32(JoinPayload(room), 1) == room % TWO32
    ensures Get32(MovePayload(seqNo, dx, dy), 1) == seqNo % TWO32
    ensures Get16(MovePayload(seqNo, dx, dy), 5) == dx % 0x1_0000
            && Get16(MovePayload(seqNo, dx, dy), 7) == dy % 0x1_0000
  {
    hide Be32, Be16, Get32, Get16;
    var j, m := JoinPayload(room), MovePayload(seqNo, dx, dy);
    assert j[1..5] == Be32(room) && m[1..5] == Be32(seqNo) && m[5..7] == Be16(dx) && m[7..9] == Be16(dy);
    Get32At(j, 1, Be32(room));
    Get32At(m, 1, Be32(seqNo));
    Get16At(m, 5, Be16(dx));
    Get16At(m, 7, Be16(dy));
    Get32Be32(room);
    Get32Be32(seqNo);
    Get16Be16(dx);
    Get16Be16(dy);
  }

  /** The receiver's search for its own entry. */
  function OwnSeq(es: seq<Entry>, me: int): int
  {
    if es == [] then 0 else if es[0].pid == me then es[0].lastSeq else OwnSeq(es[1..], me)
  }

  method FindOwn(payload: Bytes, me: int) returns (lastSeq: int)
    requires |payload| >= 7
    ensures lastSeq == OwnSeq(DecodeSnapshot(payload).entries, me)
  {
    ghost var es := DecodeSnapshot(payload).entries;
    var count := Get16(payload, 5);
    var off := 7;
    lastSeq := 0;
    for k := 0 to count
      invariant off == 7 + 16 * k
      invariant k <= |es| && OwnSeq(es, me) == OwnSeq(es[k..], me)
      invariant lastSeq == 0
    {
      if off + 16 > |payload| {
        assert es[k..] == [];
        return;
      }
      assert es[k..][1..] == es[k + 1..];
      if Get32(payload, off) == me {
        lastSeq := Get32(payload, off + 12);
        return;
      }
      off := off + 16;
    }
    assert es[count..] == [];
  }

  // ---- writing in place ----

  method Put32(a: array<Byte>, o: nat, v: int)
    requires o + 4 <= a.Length
    modifies a
    ensures a[..] == old(a[..o]) + Be32(v) + old(a[o + 4..])
  {
    a[o], a[o + 1] := v / 256 / 256 / 256 % 256, v / 256 / 256 % 256;
    a[o + 2], a[o + 3] := v / 256 % 256, v % 256;
  }

  method Put16(a: array<Byte>, o: nat, v: int)
    requires o + 2 <= a.Length
    modifies a
    ensures a[..] == old(a[..o]) + Be16(v) + old(a[o + 2..])
  {
    a[o], a[o + 1] := v / 256 % 256, v % 256;
  }

  /** One snapshot entry at `o`, leaving the rest of the buffer alone. */
  method PutEntry(a: array<Byte>, o: nat, e: Entry)
    requires o + 16 <= a.Length
    modifies a
    ensures a[..o + 16] == old(a[..o]) + EntryBytes(e)
  {
    hide Be32;
    Put32(a, o, e.pid);
    assert a[..o + 4] == old(a[..o]) + Be32(e.pid);
    Put32(a, o + 4, e.x);
    assert a[..o + 8] == old(a[..o]) + (Be32(e.pid) + Be32(e.x));
    Put32(a, o + 8, e.y);
    assert a[..o + 12] == old(a[..o]) + (Be32(e.pid) + Be32(e.x) + Be32(e.y));
    Put32(a, o + 12, e.lastSeq);
    assert a[..o + 16] == old(a[..o]) + (Be32(e.pid) + Be32(e.x) + Be32(e.y) + Be32(e.lastSeq));
  }

  /** Length prefix, tag, tick and count of a snapshot of `n` members, eleven bytes. */
  function SnapshotHeader(tick: int, n: nat): (b: Bytes)
    ensures |b| == 11
  {
    Be32(7 + 16 * n) + [MSG_SNAPSHOT] + Be32(tick) + Be16(n)
  }

  method PutHeader(a: array<Byte>, tick: int, n: nat)
    requires 11 <= a.Length
    modifies a
    ensures a[..11] == SnapshotHeader(tick, n)
  {
    hide Be32, Be16;
    Put32(a, 0, 7 + 16 * n);
    a[4] := MSG_SNAPSHOT;
    assert a[..5] == Be32(7 + 16 * n) + [MSG_SNAPSHOT];
    Put32(a, 5, tick);
    assert a[..9] == Be32(7 + 16 * n) + [MSG_SNAPSHOT] + Be32(tick);
    Put16(a, 9, n);
    assert a[..11] == Be32(7 + 16 * n) + [MSG_SNAPSHOT] + Be32(tick) + Be16(n);
  }

  /** Header and entries side by side are the framed snapshot. */
  lemma HeaderAndEntries(tick: int, es: seq<Entry>)
    ensures SnapshotHeader(tick, |es|) + EntriesBytes(es) == Frame(SnapshotPayload(tick, es))
  {
    hide Be32, Be16, EntriesBytes;
  }

  lemma EntriesMore(es: seq<Entry>, e: Entry)
    ensures EntriesBytes(es + [e]) == EntriesBytes(es) + EntryBytes(e)
  {
    assert (es + [e])[..|es|] == es;
  }

  /** Extending a filled prefix by one entry of the member list. */
  lemma EntriesSnoc(es: seq<Entry>, k: nat)
    requires k < |es|
    ensures EntriesBytes(es[..k + 1]) == EntriesBytes(es[..k]) + EntryBytes(es[k])
  {
    assert es[..k + 1][..k] == es[..k];
  }

  /** The four messages on the wire, by example: big-endian, two's complement, length first. */
  lemma Examples()
    ensures Frame(JoinPayload(0x01020304)) == [0, 0, 0, 5, 0x01, 1, 2, 3, 4]
    ensures Frame(MovePayload(258, 1, -2)) == [0, 0, 0, 9, 0x02, 0, 0, 1, 2, 0, 1, 255, 254]
    ensures Frame(JoinedPayload(7, 258)) == [0, 0, 0, 9, 0x81, 0, 0, 0, 7, 0, 0, 1, 2]
  {
  }

  lemma SnapshotExample()
    ensures Frame(SnapshotPayload(3, [Entry(7, -2, 5, 258)])) ==
              [0, 0, 0, 23, 0x82, 0, 0, 0, 3, 0, 1] + [0, 0, 0, 7, 255, 255, 255, 254, 0, 0, 0, 5, 0, 0, 1, 2]
  {
    hide Frame, SnapshotPayload, EntryBytes, SnapshotHeader;
    var e := Entry(7, -2, 5, 258);
    EntryExample();
    EntriesSnoc([e], 0);
    assert [e][..0] == [] && [e][..1] == [e] && EntriesBytes([]) == [] && [] + EntryBytes(e) == EntryBytes(e);
    HeaderAndEntries(3, [e]);
  }

  lemma EntryExample()
    ensures EntryBytes(Entry(7, -2, 5, 258)) == [0, 0, 0, 7, 255, 255, 255, 254, 0, 0, 0, 5, 0, 0, 1, 2]
    ensures SnapshotHeader(3, 1) == [0, 0, 0, 23, 0x82, 0, 0, 0, 3, 0, 1]
  {
  }
}
