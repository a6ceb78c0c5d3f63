/** Datatypes and sums shared by the component models. */
module Basics {

  datatype Option<+T> = None | Some(value: T)

  datatype Result<+T, +E> = Ok(value: T) | Err(error: E)

  /** The sum of the weights of a sequence's elements. */
  function Sum<T>(weight: T -> nat, xs: seq<T>): nat {
    if xs == [] then 0 else Sum(weight, xs[..|xs| - 1]) + weight(xs[|xs| - 1])
  }

  lemma SumAppend<T>(weight: T -> nat, xs: seq<T>, x: T)
    ensures Sum(weight, xs + [x]) == Sum(weight, xs) + weight(x)
  {
    assert (xs + [x])[..|xs|] == xs;
  }

  lemma {:induction false} SumUpdate<T>(weight: T -> nat, xs: seq<T>, i: nat, x: T)
    requires i < |xs|
    ensures Sum(weight, xs[i := x]) == Sum(weight, xs) - weight(xs[i]) + weight(x)
  {
    var n := |xs| - 1;
    if i == n {
      assert xs[i := x][..n] == xs[..n];
    } else {
      assert xs[i := x][..n] == xs[..n][i := x];
      SumUpdate(weight, xs[..n], i, x);
    }
  }
}
