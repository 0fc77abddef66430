/** Finite counting facts that several components share. */
module Seqs {

  predicate Distinct<T(==)>(s: seq<T>) {
    forall i, j :: 0 <= i < j < |s| ==> s[i] != s[j]
  }

  /** A sequence of different numbers below m has at most m elements. */
  lemma {:induction false} Pigeonhole(s: seq<nat>, m: nat)
    requires Distinct(s)
    requires forall i :: 0 <= i < |s| ==> s[i] < m
    ensures |s| <= m
  {
    if s == [] {
      return;
    }
    assert s[0] < m;
    if i :| 0 <= i < |s| && s[i] == m - 1 {
      var rest := s[..i] + s[i + 1..];
      Pigeonhole(rest, m - 1);
    } else {
      Pigeonhole(s, m - 1);
    }
  }

  function Sum(s: seq<int>): int {
    if s == [] then 0 else s[0] + Sum(s[1..])
  }

  /** Changing one element changes the sum by the difference. */
  lemma {:induction false} SumUpdate(s: seq<int>, i: nat, v: int)
    requires i < |s|
    ensures Sum(s[i := v]) == Sum(s) - s[i] + v
  {
    if i == 0 {
      assert s[0 := v][1..] == s[1..];
    } else {
      assert s[i := v][1..] == s[1..][i - 1 := v];
      SumUpdate(s[1..], i - 1, v);
    }
  }

  lemma {:induction false} SumZero(s: seq<int>)
    requires forall i :: 0 <= i < |s| ==> s[i] == 0
    ensures Sum(s) == 0
  {
    if s != [] { SumZero(s[1..]); }
  }

  /** Each element of a exceeds its partner in b by at most d. */
  lemma {:induction false} SumAtMost(a: seq<int>, b: seq<int>, d: nat)
    requires |a| == |b| && forall k :: 0 <= k < |a| ==> a[k] <= b[k] + d
    ensures Sum(a) <= Sum(b) + d * |a|
  {
    if a != [] { SumAtMost(a[1..], b[1..], d); }
  }

  lemma {:induction false} SumLess(a: seq<int>, b: seq<int>, k: nat)
    requires |a| == |b| && (forall j :: 0 <= j < |a| ==> a[j] <= b[j]) && k < |a| && a[k] < b[k]
    ensures Sum(a) < Sum(b)
  {
    if k == 0 { SumAtMost(a[1..], b[1..], 0); } else { SumLess(a[1..], b[1..], k - 1); }
  }
}
