/** Small failure-carrying datatypes: a nullable value and the outcome of a call
    that may raise an error. */
module Wrappers {

  datatype Option<+T> = None | Some(value: T)

  /** The value of an expression that either completes or raises `error`. */
  datatype Result<+R, +E> = Success(value: R) | Failure(error: E)

  /** The outcome of a statement that either completes or raises `error`. */
  datatype Outcome<+E> = Pass | Fail(error: E)
}
