/** Shared value wrappers used across the model. */
module Basics {

  /** A present or absent value; `None` stands for a Go call that returned a non-nil error. */
  datatype Option<+T> = None | Some(value: T)

  /** The outcome of a Go call that returns only an `error`. */
  datatype Outcome = Pass | Fail(reason: string)

  /** Go's `int16`. */
  newtype int16 = x: int | -0x8000 <= x < 0x8000

  /** The position of the first element of `xs` that belongs to `s`, none when no element does. */
  function FirstIn<T(==)>(xs: seq<T>, s: set<T>): (r: Option<nat>)
    ensures r.Some? ==> r.value < |xs| && xs[r.value] in s
                        && forall j :: 0 <= j < r.value ==> xs[j] !in s
    ensures r.None? ==> forall j :: 0 <= j < |xs| ==> xs[j] !in s
    decreases |xs|
  {
    if xs == [] then None
    else if xs[0] in s then Some(0)
    else match FirstIn(xs[1..], s)
      case None => None
      case Some(k) => Some(k + 1)
  }

  /** Go's `byte`. */
  newtype byte = x: int | 0 <= x < 0x100
}
