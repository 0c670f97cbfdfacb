/** Failure-compatible return types shared by every module of the model. */
module Wrappers {

  /** An optional value: the result of a parse that may not succeed. */
  datatype Option<+T> = None | Some(value: T)

  /** A value or the exception Python would raise instead; usable with `:-`. */
  datatype Result<+T, +E> = Ok(value: T) | Err(error: E) {

    predicate IsFailure() {
      Err?
    }

    function PropagateFailure<U>(): Result<U, E>
      requires Err?
    {
      Err(error)
    }

    function Extract(): T
      requires Ok?
    {
      value
    }
  }
}
