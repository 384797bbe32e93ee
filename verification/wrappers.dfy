/** Failure-carrying results shared by every component of the model. A Swift
    `throws` function becomes a function returning `Result`. */
module Wrappers {

  datatype Option<+T> = None | Some(value: T)

  datatype Result<+T, +E> = Success(value: T) | Failure(error: E)
}
