/** Failure-carrying results shared by every module of the model. */
module Outcomes {

  datatype Option<+T> = None | Some(value: T)

  /** The outcome of an operation that raises an error code in the source. */
  datatype Result<+T> = Ok(value: T) | Err(code: string) {

    predicate IsFailure() {
      Err?
    }

    function PropagateFailure<U>(): Result<U>
      requires Err?
    {
      Err(code)
    }

    function Extract(): T
      requires Ok?
    {
      value
    }
  }
}
