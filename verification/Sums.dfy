/** Sums over sequences of numbers. */
module Sums {

  function Sum(s: seq<nat>): nat {
    if s == [] then 0 else Sum(s[..|s| - 1]) + s[|s| - 1]
  }

  lemma SumAppend(s: seq<nat>, x: nat)
    ensures Sum(s + [x]) == Sum(s) + x
  {
    assert (s + [x])[..|s|] == s;
  }

  lemma {:induction false} SumUpdate(a: seq<nat>, i: nat, v: nat)
    requires i < |a|
    ensures Sum(a[i := v]) == Sum(a) - a[i] + v
  {
    var n := |a| - 1;
    if i < n {
      assert a[i := v][..n] == a[..n][i := v];
      SumUpdate(a[..n], i, v);
    } else {
      assert a[i := v][..n] == a[..n];
    }
  }

  lemma {:induction false} SumMonotone(a: seq<nat>, b: seq<nat>)
    requires |a| == |b| && forall i :: 0 <= i < |a| ==> a[i] <= b[i]
    ensures Sum(a) <= Sum(b)
  {
    if a != [] {
      SumMonotone(a[..|a| - 1], b[..|b| - 1]);
    }
  }

  lemma {:induction false} SumConstant(a: seq<nat>, m: nat)
    requires forall i :: 0 <= i < |a| ==> a[i] == m
    ensures Sum(a) == m * |a|
  {
    if a != [] {
      SumConstant(a[..|a| - 1], m);
      assert m * |a| == m * |a[..|a| - 1]| + m;
    }
  }

  /** Flags add up to their number only if all of them are set. */
  lemma {:induction false} AllFlagsSet(a: seq<nat>)
    requires forall i :: 0 <= i < |a| ==> a[i] <= 1
    ensures Sum(a) <= |a|
    ensures Sum(a) == |a| ==> forall i :: 0 <= i < |a| ==> a[i] == 1
  {
    if a != [] {
      var p := a[..|a| - 1];
      AllFlagsSet(p);
      assert forall i :: 0 <= i < |p| ==> a[i] == p[i];
    }
  }
}
