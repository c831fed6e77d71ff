/** The optional value used throughout the model: a JavaScript `undefined`/`null`,
    a Python `dict.get` miss, or a value that is simply not there. */
module Wrappers {

  datatype Option<+T> = None | Some(value: T) {

    /** The value, or `default` when there is none. */
    function GetOr(default: T): T {
      match this
      case Some(v) => v
      case None => default
    }
  }
}
