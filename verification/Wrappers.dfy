/** Optional values and results shared by the models of the views and the window managers. */
module Wrappers {

  /** A value that may be absent, in place of a Swift optional. */
  datatype Option<+T> = None | Some(value: T)

  /** The outcome of an operation that can stop the program instead of returning. */
  datatype Result<+R, +E> = Success(value: R) | Failure(error: E)
}
