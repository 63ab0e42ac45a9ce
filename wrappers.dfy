/** Option and a failure-compatible Result, usable with `:-`. */
module Wrappers {

  datatype Option<+T> = None | Some(value: T)

  /** Either a value, or the exception raised instead of producing one. */
  datatype Result<+T, +E> = Ok(value: T) | Raise(error: E) {

    predicate IsFailure() {
      Raise?
    }

    function PropagateFailure<U>(): Result<U, E>
      requires Raise?
    {
      Raise(error)
    }

    function Extract(): T
      requires Ok?
    {
      value
    }
  }
}
