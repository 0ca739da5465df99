/** Small failure-compatible datatypes shared by the other modules. */
module Wrappers {

  /** A value that may be absent: the model's stand-in for a null pointer or a missing key. */
  datatype Option<+T> = None | Some(value: T)

  /** The outcome of an operation that returns nothing but may fail (a thrown exception). */
  datatype Outcome<+E> = Pass | Fail(error: E)

  function Min(a: int, b: int): int
  {
    if a <= b then a else b
  }
}
