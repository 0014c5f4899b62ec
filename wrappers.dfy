/** Option and Result, the two failure-compatible wrappers the model uses. */
module Wrappers {

  /** An optional value: `None` stands for JavaScript's `undefined` (and `null`). */
  datatype Option<+T> = None | Some(value: T)
  {
    predicate IsFailure() {
      None?
    }

    function PropagateFailure<U>(): Option<U>
      requires None?
    {
      None
    }

    function Extract(): T
      requires Some?
    {
      value
    }

    /** The nullish-coalescing operator `this ?? default`. */
    function GetOr(default: T): T {
      match this
      case Some(v) => v
      case None => default
    }
  }

  /** A resolved value or the message of a thrown `Error`. */
  datatype Result<+R, +E> = Success(value: R) | Failure(error: E)
}
