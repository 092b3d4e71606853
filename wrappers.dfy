/** Failure-carrying results shared by both components. */
module Wrappers {

  datatype Option<T> = None | Some(value: T)

  /** The outcome of an operation that either produces a value or rejects its input. */
  datatype Result<T, E> = Ok(value: T) | Err(error: E)
}
