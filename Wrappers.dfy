/** Optional values and results: Kotlin's nullable types and thrown exceptions. */
module Wrappers {

  /** A Kotlin `T?`: `None` stands for `null`. */
  datatype Option<+T> = None | Some(value: T) {

    /** Kotlin's elvis operator `x ?: default`. */
    function GetOr(default: T): T {
      match this
      case Some(v) => v
      case None => default
    }
  }

  /** The value of a call, or the exception it throws. */
  datatype Result<+T> = Success(value: T) | Failure(error: string)
}
