/** Failure-carrying result types used for the parser's `raise ValueError` paths. */
module Wrappers {

  datatype Option<T> = None | Some(value: T)

  datatype Result<T, E> = Success(value: T) | Failure(error: E)

  /** Pass, or Fail with the reason a check was rejected. */
  datatype Outcome<E> = Pass | Fail(error: E)
}
