/** Optional values and results with an error, used for the engine's
    "possibly undefined tensor" arguments and for its failure paths. */
module Wrappers {

  /** A possibly-undefined argument: `None` is an undefined tensor. */
  datatype Option<+T> = None | Some(value: T)

  /** The outcome of a checked operation: a value, or the error it raised. */
  datatype Result<+T, +E> = Success(value: T) | Failure(error: E)
}
