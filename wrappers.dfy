/** Option and Result, used for the error paths of the simulation core. */
module Wrappers {

  /** A value that may be absent (a missing argument, a non-finite quotient). */
  datatype Option<+T> = None | Some(value: T)

  /** Either a computed value or the error the source raises instead. */
  datatype Result<+T, +E> = Success(value: T) | Failure(error: E)
}
