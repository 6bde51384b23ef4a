/** Small failure-carrying datatypes shared by the other modules. */
module Wrappers {

  /** A value that may be absent, like a JSON property that is not there. */
  datatype Option<+T> = None | Some(value: T)

  /** Either a value or an error describing why there is none. */
  datatype Result<+R, +E> = Success(value: R) | Failure(error: E)
}
