/** Optional values and results with an error side, used throughout the model. */
module Wrappers {
  /** A value that may be absent (JavaScript's `null`/`undefined` return). */
  datatype Option<+T> = None | Some(value: T)
  {
    function GetOr(default: T): T
    {
      if Some? then value else default
    }
  }

  /** The outcome of an operation that may throw. */
  datatype Result<+T, +E> = Success(value: T) | Failure(error: E)
}
