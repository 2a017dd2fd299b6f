/** Sequences without repetition. */
module Sequences {

  predicate Distinct<T(==)>(s: seq<T>) { forall i, j | 0 <= i < j < |s| :: s[i] != s[j] }

  lemma {:induction false} DistinctWithin<T>(s: seq<T>, t: seq<T>)
    requires Distinct(s) && forall x | x in s :: x in t
    ensures |s| <= |t|
  {
    if s != [] {
      var m := |s| - 1;
      var x := s[m];
      assert x in t;
      var k :| 0 <= k < |t| && t[k] == x;
      var t' := t[..k] + t[k + 1..];
      forall y | y in s[..m] ensures y in t' {
        assert y in s && y in t;
        var i :| 0 <= i < m && s[i] == y;
        var j :| 0 <= j < |t| && t[j] == y;
        assert if j < k then t'[j] == y else t'[j - 1] == y;
      }
      DistinctWithin(s[..m], t');
    }
  }
}
