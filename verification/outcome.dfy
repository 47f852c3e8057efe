/** The two failure-carrying shapes the model uses: `Option` for the source's
    `T | null` results and `Result` for a computation that may throw. `Result`
    supports Dafny's `:-` so that a thrown error propagates the way an
    exception leaves a `try` block. */
module Outcome {

  datatype Option<+T> = None | Some(value: T)

  datatype Result<+T, +E> = Ok(value: T) | Err(error: E) {

    predicate IsFailure() {
      Err?
    }

    function PropagateFailure<U>(): Result<U, E>
      requires Err?
    {
      Err(error)
    }

    function Extract(): T
      requires Ok?
    {
      value
    }
  }
}
