/** Option and a failure-compatible Result, the shapes of Python's `None` and of a raised exception. */
module Wrappers {

  datatype Option<+T> = None | Some(value: T) {

    /** This value when it is present, else `other`. */
    function Or(other: Option<T>): Option<T> {
      if Some? then this else other
    }
  }

  /** Success carries the value; Failure carries the error that the source raises. Usable with `:-`. */
  datatype Result<+T, +E> = Success(value: T) | Failure(error: E) {

    predicate IsFailure() {
      Failure?
    }

    function PropagateFailure<U>(): Result<U, E>
      requires Failure?
    {
      Failure(error)
    }

    function Extract(): T
      requires Success?
    {
      value
    }
  }
}
