/** Optional values and results with an error, shared by the scanner and the validator. */
module Wrappers {

  /** A value that may be absent: the model of a C# reference that may be null. */
  datatype Option<+T> = None | Some(value: T)

  /** The outcome of a collaborator that either yields a value or fails with a message. */
  datatype Result<+R, +E> = Success(value: R) | Failure(error: E)
}
