/** Option, Result and Outcome datatypes shared by the model. */
module Wrappers {

  /** A value that may be missing; `None` stands for a C# `null` reference. */
  datatype Option<+T> = None | Some(value: T) {

    /** The carried value, or `default` when there is none (C#'s `??`). */
    function GetOr(default: T): T {
      match this
      case Some(v) => v
      case None => default
    }
  }

  /** Either a value or the error that an exception would have carried. */
  datatype Result<+R, +E> = Success(value: R) | Failure(error: E)

  /** The outcome of an operation that returns nothing but may fail. */
  datatype Outcome<+E> = Pass | Fail(error: E)
}
