/** Optional values and error results shared by the agent and the router. */
module Wrappers {

  /** A value that may be absent: Python's `None` versus a present value. */
  datatype Option<+T> = None | Some(value: T) {

    /** The value if present, `default` otherwise (Python's `x or default` on a number). */
    function GetOr(default: T): T {
      match this
      case Some(v) => v
      case None => default
    }
  }

  /** The outcome of a request handler: a reply, or the error it raises. */
  datatype Result<+T, +E> = Success(value: T) | Failure(error: E)
}
