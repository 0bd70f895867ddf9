/** The outcome of an operation that the source lets raise a Python exception. */
module Wrappers {

  /** The exceptions the decision pipeline can raise. */
  datatype Error =
    /** `min()` applied to an empty slice: Python's `ValueError`. */
    | EmptySequence

  datatype Result<+T> = Ok(value: T) | Err(error: Error) {
    predicate IsFailure() {
      Err?
    }

    function PropagateFailure<U>(): Result<U>
      requires Err?
    {
      Err(error)
    }

    function Extract(): T
      requires Ok?
    {
      value
    }
  }
}
