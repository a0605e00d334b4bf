/** Option and Result values standing in for Kotlin's nullable types and for
    the `Result<T>` returned by the project manager. */
module Wrappers {

  datatype Option<+T> = None | Some(value: T) {
    /** Kotlin's `?:` operator: the value, or `default` when absent. */
    function GetOr(default: T): T {
      match this
      case Some(v) => v
      case None => default
    }
  }

  /** `Result.success(v)` / `Result.failure(IllegalArgumentException(message))`. */
  datatype Result<+T> = Success(value: T) | Failure(message: string)
}
