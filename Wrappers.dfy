/** Optional values and Kotlin's `Result`, as used throughout the client. */
module Wrappers {

  /** Kotlin's nullable type `T?`: `None` is `null`. */
  datatype Option<+T> = None | Some(value: T) {

    /** Kotlin's elvis operator `x ?: default`. */
    function GetOr(default: T): T {
      match this
      case Some(v) => v
      case None => default
    }
  }

  /** Kotlin's `Result<T>`: a failure carries the message of its exception,
      which Kotlin types as nullable (`Throwable.message: String?`). */
  datatype Result<+T> = Success(value: T) | Failure(message: Option<string>)
}
