/** Plain Option and Result datatypes used across the model. */
module Wrappers {

  /** An optional value: JavaScript's `undefined` / `null` becomes `None`. */
  datatype Option<+T> = None | Some(value: T)

  /** The outcome of an operation that may throw: `Failure` carries the error. */
  datatype Result<+R, +E> = Success(value: R) | Failure(error: E)
}
