/** Optional values and failure outcomes shared by every module of the model. */
module Wrappers {

  /** A value that may be absent: Ruby's nil, JavaScript's undefined or null. */
  datatype Option<+T> = None | Some(value: T) {
    function GetOr(default: T): T {
      match this
      case Some(v) => v
      case None => default
    }
  }

  /** The outcome of a step that may raise: `Pass` or the error that escaped. */
  datatype Outcome<+E> = Pass | Fail(error: E)
}
