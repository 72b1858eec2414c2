/** Optional values and results with an error, as used throughout the model. */
module Wrappers {

  /** A value that may be absent (a C# null or a missing dictionary entry). */
  datatype Option<+T> = None | Some(value: T) {

    /** The value, or `default` when absent (the C# `??` operator). */
    function GetOr(default: T): T {
      match this
      case Some(v) => v
      case None => default
    }
  }

  /** Either a value or the exception that ended the call. */
  datatype Result<+R, +E> = Success(value: R) | Failure(error: E)
}
