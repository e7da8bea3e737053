/** Option and Result values for JavaScript's `undefined`/`null` and for thrown errors. */
module Wrappers {

  /** `None` stands for a JavaScript value that is `undefined` or `null`. */
  datatype Option<+T> = None | Some(value: T)

  /** `Failure(e)` stands for an exception thrown with message `e`. */
  datatype Result<+R, +E> = Success(value: R) | Failure(error: E)
}
