/** Option and Result, the two failure-carrying shapes the model returns
    where the Go code returns a nil pointer, a nil function or an `error`. */
module Wrappers {

  datatype Option<+T> = None | Some(value: T) {
    function GetOr(default: T): T {
      match this
      case Some(v) => v
      case None => default
    }
  }

  datatype Result<+T, +E> = Ok(value: T) | Err(error: E)
}
