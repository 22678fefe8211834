/** Option and Result, the two failure-carrying types the CLI code returns. */
module Wrappers {

  datatype Option<+T> = None | Some(value: T) {
    function GetOr(default: T): T {
      match this
      case Some(v) => v
      case None => default
    }
  }

  /** An `anyhow`-style result: a value, or an error carrying its message. */
  datatype Result<+T> = Ok(value: T) | Err(msg: string)
}
