/** Option and Result, used for JavaScript's `null`/`undefined` and for thrown errors. */
module Wrappers {

  /** `None` stands for a value that is `null` or `undefined` (the source tests both with `== null`). */
  datatype Option<+T> = None | Some(value: T)

  /** `Failure` carries the message of an `Error` that was thrown. */
  datatype Result<+T> = Success(value: T) | Failure(error: string)
}
