/** Failure-carrying values used throughout the model. */
module Outcomes {

  datatype Option<T> = None | Some(value: T)

  /** Either a value or the error that aborts the run. */
  datatype Result<T, E> = Success(value: T) | Failure(error: E)
}
