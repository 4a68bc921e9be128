/** Failure-compatible wrappers used by the view model: `Option` for a lookup
    that may find nothing (Ruby's `nil`), `Result` for an operation that may
    raise. */
module Wrappers {

  datatype Option<+T> = None | Some(value: T) {

    /** The wrapped value, or `default` when there is none. */
    function GetOr(default: T): T {
      match this
      case Some(v) => v
      case None => default
    }
  }

  /** A value, or the error nanoc would raise instead of returning. */
  datatype Result<+R, +E> = Success(value: R) | Failure(error: E)
}
