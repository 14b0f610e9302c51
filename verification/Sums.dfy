// Sums of a weight over a sequence, and how point updates change them.
module Sums {

  function Sum<T>(xs: seq<T>, f: T -> nat): nat {
    if xs == [] then 0 else Sum(xs[..|xs| - 1], f) + f(xs[|xs| - 1])
  }

  lemma SumAppend<T>(xs: seq<T>, x: T, f: T -> nat)
    ensures Sum(xs + [x], f) == Sum(xs, f) + f(x)
  {
    assert (xs + [x])[..|xs|] == xs;
  }

  lemma {:induction false} SumUpdate<T>(xs: seq<T>, i: nat, x: T, f: T -> nat)
    requires i < |xs|
    ensures Sum(xs[i := x], f) + f(xs[i]) == Sum(xs, f) + f(x)
  {
    var last := |xs| - 1;
    if i == last {
      assert xs[i := x][..last] == xs[..last];
    } else {
      assert xs[i := x][..last] == xs[..last][i := x];
      SumUpdate(xs[..last], i, x, f);
    }
  }

  /** No weight exceeds the sum. */
  lemma {:induction false} SumAtLeast<T>(xs: seq<T>, i: nat, f: T -> nat)
    requires i < |xs|
    ensures f(xs[i]) <= Sum(xs, f)
  {
    if i < |xs| - 1 {
      SumAtLeast(xs[..|xs| - 1], i, f);
    }
  }

  /** No two weights together exceed the sum. */
  lemma {:induction false} SumAtLeastTwo<T>(xs: seq<T>, i: nat, k: nat, f: T -> nat)
    requires i < k < |xs|
    ensures f(xs[i]) + f(xs[k]) <= Sum(xs, f)
  {
    if k == |xs| - 1 {
      SumAtLeast(xs[..k], i, f);
    } else {
      SumAtLeastTwo(xs[..|xs| - 1], i, k, f);
    }
  }

  /** A positive sum has a positive weight. */
  lemma {:induction false} SumWitness<T>(xs: seq<T>, f: T -> nat) returns (i: nat)
    requires Sum(xs, f) > 0
    ensures i < |xs| && f(xs[i]) > 0
  {
    i := |xs| - 1;
    if f(xs[i]) == 0 {
      i := SumWitness(xs[..i], f);
    }
  }

  /** Weights bounded by one sum up to at most the length, and to less than it
      when one of them is zero. */
  lemma {:induction false} SumOfUnits<T>(xs: seq<T>, f: T -> nat)
    requires forall x <- xs :: f(x) <= 1
    ensures Sum(xs, f) <= |xs|
    ensures (exists x <- xs :: f(x) == 0) ==> Sum(xs, f) < |xs|
  {
    if xs != [] {
      SumOfUnits(xs[..|xs| - 1], f);
    }
  }

  /** When every weight is zero, so is the sum. */
  lemma {:induction false} SumOfZeros<T>(xs: seq<T>, f: T -> nat)
    requires forall x <- xs :: f(x) == 0
    ensures Sum(xs, f) == 0
  {
    if xs != [] {
      SumOfZeros(xs[..|xs| - 1], f);
    }
  }

  /** When every weight is one, the sum is the length. */
  lemma {:induction false} SumOfOnes<T>(xs: seq<T>, f: T -> nat)
    requires forall x <- xs :: f(x) == 1
    ensures Sum(xs, f) == |xs|
  {
    if xs != [] {
      SumOfOnes(xs[..|xs| - 1], f);
    }
  }
}
