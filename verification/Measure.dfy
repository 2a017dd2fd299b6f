/** What a worker of loadgen-odin measures: the echoed sequence number of a snapshot finds the
    send time of that move, and the latency is counted in the worker's own histograms. At the
    end the workers' histograms are merged. */
module Measure {
  import opened Wire
  import opened SendTimes
  import opened Sched
  import opened Histogram
  import opened LoadGen

  const WINDOW_NS := 1_000_000_000

  /** One measured latency: its one-second window and its bucket. */
  datatype Sample = Sample(window: nat, bucket: nat)

  function Buckets(log: seq<Sample>): (bs: seq<nat>)
    ensures |bs| == |log|
  {
    if log == [] then [] else Buckets(log[..|log| - 1]) + [log[|log| - 1].bucket]
  }

  function InWindow(log: seq<Sample>, k: nat): seq<Sample>
  {
    if log == [] then []
    else InWindow(log[..|log| - 1], k) + if log[|log| - 1].window == k then [log[|log| - 1]] else []
  }

  /** A measurement: what a snapshot that arrives at `now` says about a move sent at `sent`. */
  function Measured(sent: int, now: int, start: int, warm: int, bucket: int -> nat): seq<Sample>
  {
    if sent != 0 && now > sent && now - start > warm
    then [Sample((now - start - warm) / WINDOW_NS, bucket(now - sent))]
    else []
  }

  /** It is taken only after warm-up, of a move that was sent, and later than it was; its window is the second
      in which it falls, counted from the end of warm-up, and its bucket that of the time since the send. */
  lemma MeasuredIs(sent: int, now: int, start: int, warm: int, bucket: int -> nat)
    ensures var m := Measured(sent, now, start, warm, bucket);
            && |m| <= 1 && (m != [] <==> sent != 0 && sent < now && start + warm < now)
            && forall t | t in m ::
                 && start + warm + t.window * 1_000_000_000 <= now < start + warm + (t.window + 1) * 1_000_000_000
                 && t.bucket == bucket(now - sent)
  {
  }

  class Meter {
    const bucket: int -> nat
    const start: int
    const warm: int
    const hist: Hist
    const windows: seq<Hist>
    var snapsRecv: nat
    var measured: nat
    ghost var log: seq<Sample>

    ghost predicate Apart()
    {
      && (forall i, j | 0 <= i < j < |windows| :: windows[i] != windows[j] && windows[i].counts != windows[j].counts)
      && (forall i | 0 <= i < |windows| :: windows[i] != hist && windows[i].counts != hist.counts)
      && (forall t :: bucket(t) < NBUCKETS)
    }

    /** The histograms hold exactly what was logged, each window its share. */
    ghost predicate Valid()
      reads this, hist, hist.counts, windows, set w | w in windows :: w.counts
    {
      && Apart() && measured == |log|
      && hist.Valid() && hist.samples == Buckets(log)
      && forall k | 0 <= k < |windows| :: windows[k].Valid() && windows[k].samples == Buckets(InWindow(log, k))
    }

    constructor (bucket: int -> nat, start: int, warm: int, nwin: nat)
      requires forall t :: bucket(t) < NBUCKETS
      ensures Valid() && log == [] && |windows| == nwin && this.bucket == bucket
    {
      var all := new Hist();
      var ws := NewHists(nwin);
      this.bucket, this.start, this.warm := bucket, start, warm;
      hist, windows, snapsRecv, measured, log := all, ws, 0, 0, [];
    }

    method Record(t: Sample)
      requires Valid() && t.bucket < NBUCKETS
      modifies `measured, `log, hist, hist.counts, windows, set w | w in windows :: w.counts
      ensures Valid() && log == old(log) + [t]
    {
      hide Hist.Valid, Buckets, InWindow;
      hist.Record(t.bucket);
      BucketsPush(log, t);
      measured := measured + 1;
      if t.window < |windows| { windows[t.window].Record(t.bucket); }
      forall k | 0 <= k < |windows|
        ensures windows[k].Valid() && windows[k].samples == Buckets(InWindow(log + [t], k))
      {
        InWindowPush(log, t, k);
        BucketsPush(InWindow(log, k), t);
      }
      log := log + [t];
    }

    /** A snapshot on a joined connection is counted. What an echo measures is the time since the
        newest move in its slot: that very move, if it is one of the last 256 of the connection,
        and a newer one that took its slot otherwise. */
    method HandleSnapshot(c: Client, payload: Bytes, now: int)
      requires Valid() && c.Valid()
      modifies `snapsRecv, `measured, `log, hist, hist.counts, windows, set w | w in windows :: w.counts
      ensures Valid()
      ensures snapsRecv == old(snapsRecv) + if c.joined then 1 else 0
      ensures var s := if c.joined && |payload| >= 7 then OwnSeq(DecodeSnapshot(payload).entries, c.myId) else 0;
              && (s <= 0 ==> log == old(log))
              && (s > 0 ==> log == old(log) + Measured(SlotTime(c.times, s % RING), now, start, warm, bucket))
              && (0 < s <= |c.times| ==>
                    var q := Newest(|c.times|, s);
                    s <= q <= |c.times| && log == old(log) + Measured(c.times[q - 1], now, start, warm, bucket))
              && (0 < s <= |c.times| && |c.times| - s < RING ==>
                    log == old(log) + Measured(c.times[s - 1], now, start, warm, bucket))
    {
      hide Hist.Valid, OwnSeq, DecodeSnapshot, Client.Valid, Buckets, InWindow, Newest, SlotTime;
      if !c.joined { return; }
      snapsRecv := snapsRecv + 1;
      if |payload| < 7 { return; }
      var lastSeq := FindOwn(payload, c.myId);
      if lastSeq > 0 {
        var st := c.SentAt(lastSeq);
        if st != 0 && now > st && now - start > warm {
          Record(Sample((now - start - warm) / WINDOW_NS, bucket(now - st)));
        }
      }
    }
  }

  lemma BucketsPush(log: seq<Sample>, t: Sample)
    ensures Buckets(log + [t]) == Buckets(log) + [t.bucket]
  {
    assert (log + [t])[..|log|] == log;
  }

  lemma InWindowPush(log: seq<Sample>, t: Sample, k: nat)
    ensures InWindow(log + [t], k) == if t.window == k then InWindow(log, k) + [t] else InWindow(log, k)
  {
    assert (log + [t])[..|log|] == log;
  }

  /** A window has exactly the samples of its second, as often as they were taken. */
  lemma {:induction false} InWindowIs(log: seq<Sample>, k: nat, t: Sample)
    ensures multiset(InWindow(log, k))[t] == if t.window == k then multiset(log)[t] else 0
  {
    if log != [] {
      var m := |log| - 1;
      InWindowIs(log[..m], k, t);
      assert log == log[..m] + [log[m]];
    }
  }

  /** The samples of some workers together, and those of them in window `k`. */
  function Gathered(logs: seq<seq<Sample>>): seq<nat>
  {
    if logs == [] then [] else Gathered(logs[..|logs| - 1]) + Buckets(logs[|logs| - 1])
  }

  function GatheredIn(logs: seq<seq<Sample>>, k: nat): seq<nat>
  {
    if logs == [] then [] else GatheredIn(logs[..|logs| - 1], k) + Buckets(InWindow(logs[|logs| - 1], k))
  }

  /** What each worker has logged and counted. */
  ghost function Logs(ms: seq<Meter>): (r: seq<seq<Sample>>)
    reads ms`log
    ensures |r| == |ms| && forall i | 0 <= i < |ms| :: r[i] == ms[i].log
  {
    if ms == [] then [] else Logs(ms[..|ms| - 1]) + [ms[|ms| - 1].log]
  }

  ghost function Snaps(ms: seq<Meter>): (r: seq<nat>)
    reads ms`snapsRecv
    ensures |r| == |ms| && forall i | 0 <= i < |ms| :: r[i] == ms[i].snapsRecv
  {
    if ms == [] then [] else Snaps(ms[..|ms| - 1]) + [ms[|ms| - 1].snapsRecv]
  }

  ghost function Moves(ws: seq<Worker>): (r: seq<nat>)
    reads ws`movesSent
    ensures |r| == |ws| && forall i | 0 <= i < |ws| :: r[i] == ws[i].movesSent
  {
    if ws == [] then [] else Moves(ws[..|ws| - 1]) + [ws[|ws| - 1].movesSent]
  }

  ghost function MovesMeasured(ws: seq<Worker>): (r: seq<nat>)
    reads ws`movesMeasured
    ensures |r| == |ws| && forall i | 0 <= i < |ws| :: r[i] == ws[i].movesMeasured
  {
    if ws == [] then [] else MovesMeasured(ws[..|ws| - 1]) + [ws[|ws| - 1].movesMeasured]
  }

  ghost predicate HistsOk(hs: seq<Hist>)
    reads hs, set h | h in hs :: h.counts
  {
    && (forall i, j | 0 <= i < j < |hs| :: hs[i] != hs[j] && hs[i].counts != hs[j].counts)
    && forall i | 0 <= i < |hs| :: hs[i].Valid()
  }

  method NewHists(n: nat) returns (hs: seq<Hist>)
    ensures |hs| == n && HistsOk(hs) && forall i | 0 <= i < n :: hs[i].samples == []
    ensures forall h | h in hs :: fresh(h) && fresh(h.counts)
  {
    hide Hist.Valid;
    hs := [];
    while |hs| < n
      invariant |hs| <= n && HistsOk(hs) && forall i | 0 <= i < |hs| :: hs[i].samples == []
      invariant forall h | h in hs :: fresh(h) && fresh(h.counts)
    {
      var h := new Hist();
      hs := hs + [h];
    }
  }

  /** None of the one is part of the other. */
  ghost predicate Apart(hs: seq<Hist>, src: seq<Hist>)
  {
    forall h, w | h in hs && w in src :: h != w && h.counts != w.counts
  }

  method MergeAt(hs: seq<Hist>, src: seq<Hist>, k: nat)
    requires HistsOk(hs) && HistsOk(src) && |src| == |hs| && k < |hs| && Apart(hs, src)
    modifies hs[k], hs[k].counts
    ensures HistsOk(hs) && HistsOk(src)
    ensures hs[k].samples == old(hs[k].samples) + src[k].samples
    ensures forall i | 0 <= i < |hs| && i != k :: hs[i].samples == old(hs[i].samples)
    ensures forall i | 0 <= i < |src| :: src[i].samples == old(src[i].samples)
  {
    hide Hist.Valid;
    assert hs[k] in hs && forall w | w in src :: w != hs[k] && w.counts != hs[k].counts;
    assert forall i | 0 <= i < |src| :: src[i] in src;
    hs[k].Merge(src[k]);
  }

  /** Adds histograms one by one. */
  method MergeEach(hs: seq<Hist>, src: seq<Hist>)
    requires HistsOk(hs) && HistsOk(src) && |src| == |hs| && Apart(hs, src)
    modifies hs, set h | h in hs :: h.counts
    ensures HistsOk(hs)
    ensures forall k | 0 <= k < |hs| :: hs[k].samples == old(hs[k].samples) + src[k].samples
  {
    hide Hist.Valid, HistsOk, Apart;
    for k := 0 to |hs|
      invariant HistsOk(hs) && HistsOk(src)
      invariant forall i | 0 <= i < |src| :: src[i].samples == old(src[i].samples)
      invariant forall i | 0 <= i < |hs| :: hs[i].samples == old(hs[i].samples) + if i < k then src[i].samples else []
    {
      assert hs[k] in hs;
      MergeAt(hs, src, k);
    }
  }

  /** The histograms of a worker: that of the whole run, and those of its windows. */
  function Hists(m: Meter): (hs: seq<Hist>)
    ensures |hs| == |m.windows| + 1 && hs[0] == m.hist && hs[1..] == m.windows
  {
    [m.hist] + m.windows
  }

  lemma HistsOfMeter(m: Meter)
    requires m.Valid()
    ensures HistsOk(Hists(m)) && m.hist.samples == Buckets(m.log)
    ensures forall k | 1 <= k <= |m.windows| :: Hists(m)[k].samples == Buckets(InWindow(m.log, k - 1))
  {
    hide Hist.Valid, Buckets, InWindow;
  }

  /** What the merged histograms hold: everything first, then the windows. */
  predicate Totals(samples: seq<seq<nat>>, logs: seq<seq<Sample>>)
  {
    |samples| > 0 && samples[0] == Gathered(logs)
    && forall k | 1 <= k < |samples| :: samples[k] == GatheredIn(logs, k - 1)
  }

  ghost function SamplesOf(hs: seq<Hist>): (ss: seq<seq<nat>>)
    reads hs`samples
    ensures |ss| == |hs| && forall i | 0 <= i < |hs| :: ss[i] == hs[i].samples
  {
    if hs == [] then [] else SamplesOf(hs[..|hs| - 1]) + [hs[|hs| - 1].samples]
  }

  /** The first merged histogram is that of all samples of all workers, and those after it are of
      all samples taken in each window; the counters are the totals of what the workers sent,
      received and measured, and the last one is the number of samples. */
  method MergeAll(ws: seq<Worker>, ms: seq<Meter>, nwin: nat)
    returns (hs: seq<Hist>, moves: nat, movesMeasured: nat, snaps: nat, measured: nat)
    requires |ws| == |ms| && forall i | 0 <= i < |ms| :: ms[i].Valid() && |ms[i].windows| == nwin
    ensures |hs| == nwin + 1 && HistsOk(hs) && Totals(SamplesOf(hs), Logs(ms))
    ensures moves == Sum(Moves(ws)) && movesMeasured == Sum(MovesMeasured(ws))
    ensures snaps == Sum(Snaps(ms)) && measured == |Gathered(Logs(ms))|
  {
    hide Hist.Valid, Meter.Valid, HistsOk, Totals, Buckets, InWindow, Gathered, GatheredIn, SamplesOf;
    hide Sum, Logs, Snaps, Moves, MovesMeasured;
    ghost var logs, sn, mv, mm := Logs(ms), Snaps(ms), Moves(ws), MovesMeasured(ws);
    moves, movesMeasured, snaps, measured := 0, 0, 0, 0;
    hs := NewHists(nwin + 1);
    NoneYet(SamplesOf(hs));
    for i := 0 to |ms|
      invariant |hs| == nwin + 1 && HistsOk(hs) && forall h | h in hs :: fresh(h) && fresh(h.counts)
      invariant Totals(SamplesOf(hs), logs[..i]) && measured == |Gathered(logs[..i])|
      invariant moves == Sum(mv[..i]) && movesMeasured == Sum(mm[..i]) && snaps == Sum(sn[..i])
    {
      SumSnoc(mv, i);
      SumSnoc(mm, i);
      SumSnoc(sn, i);
      ghost var before := SamplesOf(hs);
      assert forall k | 0 <= k <= nwin :: hs[k] in hs;
      MergeOne(hs, ms[i]);
      OneMore(before, SamplesOf(hs), logs, i);
      moves, movesMeasured := moves + ws[i].movesSent, movesMeasured + ws[i].movesMeasured;
      snaps, measured := snaps + ms[i].snapsRecv, measured + ms[i].measured;
    }
    assert logs[..|ms|] == logs && mv[..|ws|] == mv && mm[..|ws|] == mm && sn[..|ms|] == sn;
  }

  /** Adds all histograms of one worker. */
  method MergeOne(hs: seq<Hist>, m: Meter)
    requires HistsOk(hs) && m.Valid() && |hs| == |m.windows| + 1
    requires Apart(hs, Hists(m))
    modifies hs, set h | h in hs :: h.counts
    ensures HistsOk(hs) && hs[0].samples == old(hs[0].samples) + Buckets(m.log)
    ensures forall k | 1 <= k < |hs| :: hs[k].samples == old(hs[k].samples) + Buckets(InWindow(m.log, k - 1))
    ensures m.measured == |Buckets(m.log)|
  {
    hide Hist.Valid, Buckets, InWindow, HistsOk;
    HistsOfMeter(m);
    MergeEach(hs, Hists(m));
  }

  lemma NoneYet(samples: seq<seq<nat>>)
    requires |samples| > 0 && forall k | 0 <= k < |samples| :: samples[k] == []
    ensures Totals(samples, []) && Gathered([]) == [] && Sum([]) == 0
  {
  }

  lemma OneMore(before: seq<seq<nat>>, after: seq<seq<nat>>, logs: seq<seq<Sample>>, i: nat)
    requires i < |logs| && |before| == |after| && Totals(before, logs[..i])
    requires after[0] == before[0] + Buckets(logs[i])
    requires forall k | 1 <= k < |after| :: after[k] == before[k] + Buckets(InWindow(logs[i], k - 1))
    ensures Totals(after, logs[..i + 1]) && |Gathered(logs[..i + 1])| == |Gathered(logs[..i])| + |Buckets(logs[i])|
  {
    hide Buckets, InWindow;
    assert logs[..i + 1][..i] == logs[..i];
  }

  lemma SumSnoc(xs: seq<nat>, i: nat)
    requires i < |xs|
    ensures Sum(xs[..i + 1]) == Sum(xs[..i]) + xs[i]
  {
    assert xs[..i + 1][..i] == xs[..i];
  }

  /** The quantile that is printed is that of all samples of all workers. */
  method Report(ws: seq<Worker>, ms: seq<Meter>, nwin: nat, p: real) returns (some: bool, b: nat)
    requires 0.0 <= p && |ws| == |ms| && forall i | 0 <= i < |ms| :: ms[i].Valid() && |ms[i].windows| == nwin
    ensures some <==> Gathered(Logs(ms)) != []
    ensures some ==> IsPercentile(Gathered(Logs(ms)), p, b)
  {
    hide Hist.Valid, Meter.Valid, Gathered, GatheredIn, Logs, SamplesOf, IsPercentile, Sum;
    var hs, _, _, _, _ := MergeAll(ws, ms, nwin);
    some, b := hs[0].Percentile(p);
  }
}
