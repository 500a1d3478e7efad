/** Failure-carrying values used across the model: an absent value, and the
    outcome of a call that may raise (the raised message is the failure). */
module Wrappers {

  datatype Option<+T> = None | Some(value: T)

  datatype Result<+R, +E> = Success(value: R) | Failure(error: E)
}
