/** Small failure-carrying datatypes shared by the other modules. */
module Wrappers {

  /** A value that may be absent; stands for Swift's optionals. */
  datatype Option<+T> = None | Some(value: T)

  /** Either a value or an error; stands for the (value, NSError?) pairs the Swift functions return. */
  datatype Result<+R, +E> = Success(value: R) | Failure(error: E)
}
