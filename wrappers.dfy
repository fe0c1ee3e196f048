/** Failure-carrying result types shared by every module of the model. */
module Wrappers {

  datatype Option<+T> = None | Some(value: T) {
    function GetOr(default: T): T {
      match this
      case Some(v) => v
      case None => default
    }
  }

  datatype Result<+T, +E> = Ok(value: T) | Err(error: E)

  /** What a remote collaborator (metrics backend, dashboard store) answered:
      a value, or a failure that the caller only wraps and passes on. */
  datatype Reply<+T> = Answered(value: T) | Failed
}
