/** Sums over the threads of a system, and how one thread's step changes them. */
module Tallying {

  function Sum<T>(ts: seq<T>, weight: T -> nat): nat {
    if ts == [] then 0 else weight(ts[0]) + Sum(ts[1..], weight)
  }

  lemma {:induction false} SumUpdate<T>(ts: seq<T>, i: nat, x: T, weight: T -> nat)
    requires i < |ts|
    ensures Sum(ts[i := x], weight) + weight(ts[i]) == Sum(ts, weight) + weight(x)
  {
    if i == 0 {
      assert ts[0 := x][1..] == ts[1..];
    } else {
      assert ts[i := x][1..] == ts[1..][i - 1 := x];
      SumUpdate(ts[1..], i - 1, x, weight);
    }
  }

  lemma {:induction false} SumCovers<T>(ts: seq<T>, i: nat, weight: T -> nat)
    requires i < |ts|
    ensures Sum(ts, weight) >= weight(ts[i])
  {
    if i > 0 {
      SumCovers(ts[1..], i - 1, weight);
    }
  }

  lemma {:induction false} SumZero<T>(ts: seq<T>, weight: T -> nat)
    requires forall i :: 0 <= i < |ts| ==> weight(ts[i]) == 0
    ensures Sum(ts, weight) == 0
  {
    if ts != [] {
      assert forall i :: 0 <= i < |ts[1..]| ==> ts[1..][i] == ts[i + 1];
      SumZero(ts[1..], weight);
    }
  }
}
