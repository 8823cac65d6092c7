/** Option and Result: Kotlin's nullable values and the success/failure outcome of a call that may throw. */
module Wrappers {

  /** A Kotlin `T?`: `None` stands for `null`. */
  datatype Option<+T> = None | Some(value: T) {
    /** `this ?: default` */
    function GetOr(default: T): T {
      match this
      case Some(v) => v
      case None => default
    }
  }

  /** Kotlin's `Result<T>`: either the value or the exception that was thrown. */
  datatype Result<+T, +E> = Success(value: T) | Failure(error: E)
}
