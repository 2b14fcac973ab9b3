/** Sums over the elements of a sequence. */
module Sums {
  function SumOf<T>(f: T -> nat, xs: seq<T>): nat {
    if xs == [] then 0 else f(xs[0]) + SumOf(f, xs[1..])
  }

  lemma {:induction false} SumUpdate<T>(f: T -> nat, xs: seq<T>, i: nat, v: T)
    requires i < |xs|
    ensures SumOf(f, xs[i := v]) + f(xs[i]) == SumOf(f, xs) + f(v)
  {
    if i == 0 {
      assert xs[0 := v][1..] == xs[1..];
    } else {
      SumUpdate(f, xs[1..], i - 1, v);
      assert xs[i := v][1..] == xs[1..][i - 1 := v];
    }
  }

  lemma {:induction false} SumMember<T>(f: T -> nat, xs: seq<T>, i: nat)
    requires i < |xs|
    ensures f(xs[i]) <= SumOf(f, xs)
  {
    if i > 0 { SumMember(f, xs[1..], i - 1); }
  }

  lemma {:induction false} SumPositive<T>(f: T -> nat, xs: seq<T>) returns (i: nat)
    requires SumOf(f, xs) > 0
    ensures i < |xs| && f(xs[i]) > 0
  {
    if f(xs[0]) > 0 {
      i := 0;
    } else {
      i := SumPositive(f, xs[1..]);
      i := i + 1;
    }
  }

  // Each of n terms is at most 1: the sum is n exactly when every term is 1.
  lemma {:induction false} SumAllOnes<T>(f: T -> nat, xs: seq<T>)
    requires forall i :: 0 <= i < |xs| ==> f(xs[i]) <= 1
    ensures SumOf(f, xs) <= |xs|
    ensures SumOf(f, xs) == |xs| <==> forall i :: 0 <= i < |xs| ==> f(xs[i]) == 1
  {
    if xs != [] {
      var ys := xs[1..];
      assert forall i :: 0 <= i < |ys| ==> ys[i] == xs[i + 1];
      SumAllOnes(f, ys);
      assert (forall i :: 0 <= i < |xs| ==> f(xs[i]) == 1)
        <==> f(xs[0]) == 1 && forall i :: 0 <= i < |ys| ==> f(ys[i]) == 1 by {
        if f(xs[0]) == 1 && forall i :: 0 <= i < |ys| ==> f(ys[i]) == 1 {
          forall i | 0 <= i < |xs| ensures f(xs[i]) == 1 {
            if i > 0 { assert xs[i] == ys[i - 1]; }
          }
        }
      }
    }
  }

  lemma {:induction false} SumZero<T>(f: T -> nat, xs: seq<T>)
    requires forall i :: 0 <= i < |xs| ==> f(xs[i]) == 0
    ensures SumOf(f, xs) == 0
  {
    if xs != [] {
      assert forall i :: 0 <= i < |xs[1..]| ==> xs[1..][i] == xs[i + 1];
      SumZero(f, xs[1..]);
    }
  }
}
