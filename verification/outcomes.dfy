/** Failure results of the indicator engine. Each C `NULL` (or `EXIT_FAILURE`)
    return becomes an explicit `Err`, tagged with why it happened. */
module Outcomes {

  /** InvalidInput: a guard on the arguments rejected the call.
      DependencyFailure: an internal call to another indicator failed. */
  datatype Error = InvalidInput | DependencyFailure

  datatype Result<T> = Ok(value: T) | Err(error: Error)
}
