/** Optional values and success/failure results shared by the model. */
module Outcomes {

  /** A value that may be absent. */
  datatype Option<T> = None | Some(value: T)

  /** Either the computed value or the reason the computation stopped. */
  datatype Result<T, E> = Success(value: T) | Failure(error: E)
}
