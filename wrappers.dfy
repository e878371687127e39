/** Option and Result, the two failure-carrying datatypes the model uses.
    Result supports Dafny's `:-` so that a chain of lookups stops at the
    first exception, as a Python `try` block does. */
module Wrappers {

  datatype Option<+T> = None | Some(value: T)

  datatype Result<+T, +E> = Ok(value: T) | Err(error: E) {

    predicate IsFailure() {
      Err?
    }

    function PropagateFailure<U>(): Result<U, E>
      requires Err?
    {
      Err(error)
    }

    function Extract(): T
      requires Ok?
    {
      value
    }
  }
}
