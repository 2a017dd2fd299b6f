/** Player ids of the pooled Dart server: every isolate counts in strides of its own. */
module Pids {
  import opened Wire
  import opened Sequences

  class Worker {
    const id: nat
    const stride: nat
    var nextPid: int
    /** How many ids this worker has given out. */
    ghost var given: nat

    ghost predicate Valid()
      reads this
    {
      id < stride && nextPid == id + 1 + given * stride
    }

    constructor (id: nat, stride: nat)
      requires id < stride
      ensures Valid() && given == 0 && this.id == id && this.stride == stride
    {
      this.id, this.stride := id, stride;
      nextPid, given := id + 1, 0;
    }

    method NewPid() returns (p: int)
      requires Valid()
      modifies this
      ensures Valid() && given == old(given) + 1
      ensures p == PidOf(id, stride, old(given))
    {
      p := nextPid % TWO32;
      nextPid := nextPid + stride;
      given := given + 1;
      assert nextPid == id + 1 + given * stride by { assert given * stride == (given - 1) * stride + stride; }
    }
  }

  function PidOf(id: nat, stride: nat, k: nat): int { (id + 1 + k * stride) % TWO32 }

  /** How often the worker of call `i` was called before. */
  function Earlier(calls: seq<nat>, i: nat): nat
    requires i < |calls|
  {
    multiset(calls[..i])[calls[i]]
  }

  /** The ids that a sequence of calls, each to some worker, gives out. */
  function IdsOf(calls: seq<nat>, stride: nat): (ids: seq<int>)
    ensures |ids| == |calls|
  {
    seq(|calls|, i requires 0 <= i < |calls| => PidOf(calls[i], stride, Earlier(calls, i)))
  }

  lemma StrideLess(a: nat, j: nat, b: nat, k: nat, stride: nat)
    requires a < stride && j < k
    ensures a + j * stride < b + k * stride
  {
    assert j * stride + stride == (j + 1) * stride;
    assert (j + 1) * stride <= k * stride by { MulMono(j + 1, k, stride); }
  }

  lemma MulMono(x: nat, y: nat, z: nat)
    requires x <= y
    ensures x * z <= y * z
  {
    assert y * z - x * z == (y - x) * z;
  }

  /** Below 2^32, an id determines its worker and how many that worker had given out. */
  lemma PidUnique(a: nat, j: nat, b: nat, k: nat, stride: nat)
    requires a < stride && b < stride && a + 1 + j * stride < TWO32 && b + 1 + k * stride < TWO32
    ensures PidOf(a, stride, j) == PidOf(b, stride, k) ==> a == b && j == k
    ensures PidOf(a, stride, j) != 0
  {
    MulMono(0, j, stride);
    MulMono(0, k, stride);
    assert PidOf(a, stride, j) == a + 1 + j * stride;
    assert PidOf(b, stride, k) == b + 1 + k * stride;
    if j < k { StrideLess(a, j, b, k, stride); }
    if k < j { StrideLess(b, k, a, j, stride); }
  }

  /** However the calls interleave over the workers, no id is given out twice and none is 0, as long
      as the counters have not passed 32 bits. */
  lemma IdsDistinct(calls: seq<nat>, stride: nat)
    requires forall i | 0 <= i < |calls| :: calls[i] < stride
    requires forall i | 0 <= i < |calls| :: calls[i] + 1 + Earlier(calls, i) * stride < TWO32
    ensures forall i | 0 <= i < |calls| :: IdsOf(calls, stride)[i] != 0
    ensures forall i, j | 0 <= i < j < |calls| :: IdsOf(calls, stride)[i] != IdsOf(calls, stride)[j]
  {
    hide PidOf, Earlier;
    forall i | 0 <= i < |calls| ensures IdsOf(calls, stride)[i] != 0 {
      PidUnique(calls[i], Earlier(calls, i), calls[i], Earlier(calls, i), stride);
    }
    forall i, j | 0 <= i < j < |calls| ensures IdsOf(calls, stride)[i] != IdsOf(calls, stride)[j] {
      PidUnique(calls[i], Earlier(calls, i), calls[j], Earlier(calls, j), stride);
      if calls[i] == calls[j] { EarlierGrows(calls, i, j); }
    }
  }

  lemma EarlierGrows(calls: seq<nat>, i: nat, j: nat)
    requires i < j < |calls| && calls[i] == calls[j]
    ensures Earlier(calls, i) < Earlier(calls, j)
  {
    assert calls[..j] == calls[..i] + [calls[i]] + calls[i + 1..j];
  }

  /** The workers, called in any order, give out just those ids. */
  method Run(ws: seq<Worker>, calls: seq<nat>) returns (ids: seq<int>)
    requires Distinct(ws)
    requires forall i | 0 <= i < |ws| :: ws[i].Valid() && ws[i].id == i && ws[i].stride == |ws| && ws[i].given == 0
    requires forall i | 0 <= i < |calls| :: calls[i] < |ws|
    modifies ws
    ensures ids == IdsOf(calls, |ws|)
  {
    hide PidOf, IdsOf;
    ids := [];
    for n := 0 to |calls|
      invariant |ids| == n && forall i | 0 <= i < n :: ids[i] == PidOf(calls[i], |ws|, Earlier(calls, i))
      invariant forall i | 0 <= i < |ws| :: ws[i].Valid() && ws[i].given == multiset(calls[..n])[i]
    {
      assert calls[..n + 1] == calls[..n] + [calls[n]];
      assert multiset(calls[..n + 1]) == multiset(calls[..n]) + multiset{calls[n]};
      assert forall i | 0 <= i < |ws| && i != calls[n] :: ws[i] != ws[calls[n]];
      var p := ws[calls[n]].NewPid();
      ids := ids + [p];
    }
    JustThose(calls, |ws|, ids);
  }

  lemma JustThose(calls: seq<nat>, stride: nat, ids: seq<int>)
    requires |ids| == |calls| && forall i | 0 <= i < |ids| :: ids[i] == PidOf(calls[i], stride, Earlier(calls, i))
    ensures ids == IdsOf(calls, stride)
  {
  }
}
