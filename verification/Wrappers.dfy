/** Option and Result: Kotlin's nullable results and thrown exceptions, as values. */
module Wrappers {

  /** `None` stands for Kotlin's `null`. */
  datatype Option<+T> = None | Some(value: T)

  /** `Failure` stands for an exception the source throws to its caller. */
  datatype Result<+R, +E> = Success(value: R) | Failure(error: E)
}
