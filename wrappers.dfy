/** Option and Result, the two failure-carrying shapes the model uses. */
module Wrappers {

  datatype Option<+T> = None | Some(value: T)

  /** A computation that produced a value or threw an error with a message. */
  datatype Result<+T> = Success(value: T) | Failure(error: string)
}
