/** Optional values and the outcome of a call into the settings storage. */
module Wrappers {

  /** Kotlin's nullable type: `None` stands for `null`. */
  datatype Option<+T> = None | Some(value: T) {

    /** Kotlin's `?:` (the Elvis operator). */
    function GetOr(default: T): (r: T) {
      match this
      case Some(v) => v
      case None => default
    }
  }

  /** Kotlin's `Result<Unit>`: the call completed (`Pass`) or its storage transaction threw (`Fail`). */
  datatype Outcome = Pass | Fail

  /** Kotlin's `Result<T>` when a value is carried; the throwable itself is not modelled. */
  datatype Result<+T> = Success(value: T) | Failure
}
