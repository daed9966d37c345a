/** Failure-carrying wrappers shared by the model: an absent value and a value-or-error. */
module Wrappers {

  /** A value that may be missing: a JSON parse that threw, a key that is not in a map. */
  datatype Option<+T> = None | Some(value: T)

  /** A computation that either produced a value or raised an error. */
  datatype Result<+R, +E> = Success(value: R) | Failure(error: E)
}
