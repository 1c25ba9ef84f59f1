/** Option, Result and Outcome: the error paths of the model are values, not preconditions. */
module Wrappers {

  datatype Option<+T> = None | Some(value: T)

  datatype Result<+R, +E> = Success(value: R) | Failure(error: E)

  /** A step that either completes or throws `error`. */
  datatype Outcome<+E> = Pass | Fail(error: E)
}
