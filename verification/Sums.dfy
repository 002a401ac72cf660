/** Sums of integer sequences. */
module Sums {

  function Sum(q: seq<int>): int {
    if q == [] then 0 else q[0] + Sum(q[1..])
  }

  lemma {:induction false} SumUpdate(q: seq<int>, i: nat, v: int)
    requires i < |q|
    ensures Sum(q[i := v]) == Sum(q) - q[i] + v
  {
    if i == 0 {
      assert q[0 := v][1..] == q[1..];
    } else {
      assert q[i := v][1..] == q[1..][i - 1 := v];
      SumUpdate(q[1..], i - 1, v);
    }
  }

  lemma {:induction false} SumNonNegative(q: seq<int>)
    requires forall i :: 0 <= i < |q| ==> q[i] >= 0
    ensures Sum(q) >= 0
  {
    if q != [] {
      assert forall i :: 0 <= i < |q[1..]| ==> q[1..][i] == q[i + 1];
      SumNonNegative(q[1..]);
    }
  }

  lemma {:induction false} SumZero(q: seq<int>)
    requires forall i :: 0 <= i < |q| ==> q[i] == 0
    ensures Sum(q) == 0
  {
    if q != [] {
      SumZero(q[1..]);
    }
  }
}
