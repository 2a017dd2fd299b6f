/** Latency measurement of the load generators: one histogram in loadgen, one per worker merged
    at the end in loadgen-odin. How a latency maps to its bucket is a parameter. */
module Histogram {

  const NBUCKETS := 8000

  // ---- what the numbers mean ----

  /** How many samples lie in the buckets below `b`. */
  function CountBelow(samples: seq<nat>, b: nat): (n: nat)
    ensures n <= |samples|
  {
    if samples == [] then 0
    else CountBelow(samples[..|samples| - 1], b) + if samples[|samples| - 1] < b then 1 else 0
  }

  /** A histogram has counted these samples, and nothing else. */
  ghost predicate Counts(counts: seq<nat>, samples: seq<nat>)
  {
    forall i | 0 <= i < |counts| :: counts[i] == multiset(samples)[i]
  }

  lemma {:induction false} CountStep(samples: seq<nat>, b: nat)
    ensures CountBelow(samples, b + 1) == CountBelow(samples, b) + multiset(samples)[b]
  {
    if samples != [] {
      var m := |samples| - 1;
      CountStep(samples[..m], b);
      assert samples == samples[..m] + [samples[m]];
    }
  }

  lemma {:induction false} CountNone(samples: seq<nat>)
    ensures CountBelow(samples, 0) == 0
  {
    if samples != [] { CountNone(samples[..|samples| - 1]); }
  }

  lemma {:induction false} CountAll(samples: seq<nat>, b: nat)
    requires forall i | 0 <= i < |samples| :: samples[i] < b
    ensures CountBelow(samples, b) == |samples|
  {
    if samples != [] { CountAll(samples[..|samples| - 1], b); }
  }

  /** Only which samples there are matters, not in what order or by whom they were taken. */
  lemma {:induction false} CountOrder(s: seq<nat>, t: seq<nat>, b: nat)
    requires multiset(s) == multiset(t)
    ensures CountBelow(s, b) == CountBelow(t, b)
  {
    if b == 0 {
      CountNone(s);
      CountNone(t);
    } else {
      CountOrder(s, t, b - 1);
      CountStep(s, b - 1);
      CountStep(t, b - 1);
    }
  }

  /** The rank of the p-quantile among n samples. */
  function Rank(n: nat, p: real): (k: int)
    requires 0.0 <= p
    ensures k >= 0 && (p <= 1.0 ==> k <= n) && k as real <= p * n as real < (k + 1) as real
  {
    var x := p * n as real;
    assert 0.0 <= x && (p <= 1.0 ==> x <= n as real);
    x.Floor
  }

  lemma RankMonotone(n: nat, p: real, q: real)
    requires 0.0 <= p <= q
    ensures Rank(n, p) <= Rank(n, q)
  {
    var x, y := p * n as real, q * n as real;
    assert x <= y;
    assert x.Floor <= y.Floor;
  }

  /** Bucket `b` holds the p-quantile: it is the first one up to which there are as many samples
      as the quantile's rank; the last bucket if p asks for more samples than there are. */
  predicate IsPercentile(samples: seq<nat>, p: real, b: nat)
    requires 0.0 <= p
  {
    && b < NBUCKETS
    && (Rank(|samples|, p) <= CountBelow(samples, b + 1) || b == NBUCKETS - 1)
    && forall a | 1 <= a <= b :: CountBelow(samples, a) < Rank(|samples|, p)
  }

  /** A higher quantile of the same samples lies in no lower bucket, and the same one, however the
      samples were spread over workers, in the same bucket. */
  lemma PercentileMonotone(s: seq<nat>, t: seq<nat>, p: real, q: real, a: nat, b: nat)
    requires 0.0 <= p <= q && multiset(s) == multiset(t)
    requires IsPercentile(s, p, a) && IsPercentile(t, q, b)
    ensures a <= b && (p == q ==> a == b)
  {
    hide CountBelow, Rank;
    assert |s| == |multiset(s)| == |t|;
    RankMonotone(|s|, p, q);
    CountOrder(s, t, b + 1);
    CountOrder(s, t, a + 1);
  }

  /** Up to the bucket of a quantile there are more than `p * n - 1` of the `n` samples, and below it, unless it
      is the first, at most that many, and some sample lies in it. */
  lemma PercentileRank(samples: seq<nat>, p: real, b: nat)
    requires 0.0 <= p <= 1.0 && IsPercentile(samples, p, b)
    requires forall i | 0 <= i < |samples| :: samples[i] < NBUCKETS
    ensures CountBelow(samples, b + 1) as real > p * |samples| as real - 1.0
    ensures b > 0 ==> CountBelow(samples, b) as real <= p * |samples| as real - 1.0 && b in samples
    ensures Rank(|samples|, p) <= CountBelow(samples, b + 1)
    ensures b > 0 ==> CountBelow(samples, b) < Rank(|samples|, p)
  {
    CountAll(samples, NBUCKETS);
    if b > 0 {
      CountStep(samples, b);
    }
  }

  // ---- the histogram ----

  class Hist {
    const counts: array<nat>
    ghost var samples: seq<nat>

    ghost predicate Valid()
      reads this, counts
    {
      && counts.Length == NBUCKETS
      && (forall i | 0 <= i < |samples| :: samples[i] < NBUCKETS)
      && Counts(counts[..], samples)
    }

    constructor ()
      ensures Valid() && samples == [] && fresh(counts)
    {
      counts := new nat[NBUCKETS](_ => 0);
      samples := [];
    }

    method Record(b: nat)
      requires Valid() && b < NBUCKETS
      modifies this, counts
      ensures Valid() && samples == old(samples) + [b]
    {
      counts[b] := counts[b] + 1;
      samples := samples + [b];
    }

    method Total() returns (t: nat)
      requires Valid()
      ensures t == |samples|
    {
      t := 0;
      CountNone(samples);
      for i := 0 to NBUCKETS
        invariant t == CountBelow(samples, i)
      {
        CountStep(samples, i);
        assert counts[..][i] == counts[i];
        t := t + counts[i];
      }
      CountAll(samples, NBUCKETS);
    }

    /** The bucket of a quantile, if there are any samples. */
    method Percentile(p: real) returns (some: bool, b: nat)
      requires Valid() && 0.0 <= p
      ensures some <==> samples != []
      ensures some ==> IsPercentile(samples, p, b)
    {
      hide CountBelow, Rank;
      var total := Total();
      if total == 0 { return false, 0; }
      var target := Rank(total, p);
      var c := 0;
      CountNone(samples);
      for i := 0 to NBUCKETS
        invariant c == CountBelow(samples, i)
        invariant forall a | 1 <= a <= i :: CountBelow(samples, a) < Rank(|samples|, p)
      {
        CountStep(samples, i);
        assert counts[..][i] == counts[i];
        c := c + counts[i];
        if c >= target { return true, i; }
      }
      return true, NBUCKETS - 1;
    }

    /** Bucketwise addition makes this the histogram of both sets of samples. */
    method Merge(src: Hist)
      requires Valid() && src.Valid() && src.counts != counts && src != this
      modifies this, counts
      ensures Valid() && samples == old(samples) + src.samples
    {
      for i := 0 to NBUCKETS
        invariant forall j | i <= j < NBUCKETS :: counts[j] == old(counts[j])
        invariant forall j | 0 <= j < i :: counts[j] == old(counts[j]) + src.counts[j]
        modifies counts
      {
        counts[i] := counts[i] + src.counts[i];
      }
      samples := samples + src.samples;
      assert forall j | 0 <= j < NBUCKETS :: src.counts[..][j] == src.counts[j] && old(counts[..])[j] == old(counts[j]);
    }
  }
}
