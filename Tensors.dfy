/** Dense arrays as numpy and torch hold them: a shape together with the
    nested elements. Keeping the shape explicit lets a zero-length axis keep
    the sizes of the axes after it, which numpy compares when it
    concatenates. */
module Tensors {

  /** Why numpy or torch rejects an operation on the shapes it is given. */
  datatype ShapeError =
    | ConcatMismatch        // arrays disagree on an axis that is not concatenated
    | ChannelMismatch       // a layer receives a channel count it was not built for
    | InputTooSmall         // a spatial side is smaller than a kernel can cover
    | ChannelsNotDivisible  // pixel shuffle needs channels divisible by factor squared

  /** The outcome of an operation that may raise a shape error. */
  datatype Result<+T> = Ok(value: T) | Err(error: ShapeError)

  /** A 2-D array of shape (d0, d1). */
  datatype Array2<T> = Array2(d0: nat, d1: nat, v: seq<seq<T>>)

  /** A 3-D array of shape (d0, d1, d2). */
  datatype Array3<T> = Array3(d0: nat, d1: nat, d2: nat, v: seq<seq<seq<T>>>)

  /** The elements form a (d0, d1) rectangle. */
  predicate Valid2<T>(a: Array2<T>) {
    && |a.v| == a.d0
    && forall i :: 0 <= i < a.d0 ==> |a.v[i]| == a.d1
  }

  /** The elements form a (d0, d1, d2) box. */
  predicate Valid3<T>(a: Array3<T>) {
    && |a.v| == a.d0
    && forall i :: 0 <= i < a.d0 ==>
         && |a.v[i]| == a.d1
         && forall j :: 0 <= j < a.d1 ==> |a.v[i][j]| == a.d2
  }

  /** Element-wise application of f to a 2-D array (a numpy ufunc). */
  function Map2<T, U>(f: T -> U, a: Array2<T>): (r: Array2<U>)
    requires Valid2(a)
    ensures Valid2(r) && r.d0 == a.d0 && r.d1 == a.d1
    ensures forall i, j :: 0 <= i < a.d0 && 0 <= j < a.d1 ==> r.v[i][j] == f(a.v[i][j])
  {
    Array2(a.d0, a.d1, seq(a.d0, i requires 0 <= i < a.d0 =>
      seq(a.d1, j requires 0 <= j < a.d1 => f(a.v[i][j]))))
  }

  /** Element-wise application of f to a 3-D array. */
  function Map3<T, U>(f: T -> U, a: Array3<T>): (r: Array3<U>)
    requires Valid3(a)
    ensures Valid3(r) && r.d0 == a.d0 && r.d1 == a.d1 && r.d2 == a.d2
    ensures forall i, j, k :: 0 <= i < a.d0 && 0 <= j < a.d1 && 0 <= k < a.d2 ==>
      r.v[i][j][k] == f(a.v[i][j][k])
  {
    Array3(a.d0, a.d1, a.d2, seq(a.d0, i requires 0 <= i < a.d0 =>
      seq(a.d1, j requires 0 <= j < a.d1 =>
        seq(a.d2, k requires 0 <= k < a.d2 => f(a.v[i][j][k])))))
  }

  /** Two valid arrays of the same shape that agree everywhere are equal. */
  lemma Extensionality3<T>(a: Array3<T>, b: Array3<T>)
    requires Valid3(a) && Valid3(b)
    requires a.d0 == b.d0 && a.d1 == b.d1 && a.d2 == b.d2
    requires forall i, j, k :: 0 <= i < a.d0 && 0 <= j < a.d1 && 0 <= k < a.d2 ==>
      a.v[i][j][k] == b.v[i][j][k]
    ensures a == b
  {
    forall i | 0 <= i < a.d0
      ensures a.v[i] == b.v[i]
    {
      forall j | 0 <= j < a.d1
        ensures a.v[i][j] == b.v[i][j]
      {
      }
    }
  }
}
