/**
 * Failure-compatible wrappers: `Option` for a value that may be undefined
 * (the evaluation's NaN), `Result` and `Outcome` for the fatal errors that
 * abort a run.
 */
module Wrappers {
  datatype Option<+T> = None | Some(value: T)

  datatype Result<+T, +E> = Success(value: T) | Failure(error: E)

  datatype Outcome<+E> = Pass | Fail(error: E)
}
