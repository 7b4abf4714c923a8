/** Failure-carrying results: the model's stand-in for C++ exceptions and aborts. */
module Outcomes {

  datatype Option<+T> = None | Some(value: T)

  /** The value of a computation that either produces a T or stops with an error. */
  datatype Result<+T, +E> = Ok(value: T) | Err(error: E) {
    predicate IsFailure() {
      Err?
    }

    function PropagateFailure<U>(): Result<U, E>
      requires Err?
    {
      Err(error)
    }

    function Extract(): T
      requires Ok?
    {
      value
    }
  }

  /** The result of a step that produces nothing but may stop with an error. */
  datatype Outcome<+E> = Pass | Fail(error: E)
}
