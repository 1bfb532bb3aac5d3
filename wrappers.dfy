/** A value that may be absent: a JavaScript `null`/`undefined` field, an
    empty form input, a missing local-storage key. */
module Wrappers {

  datatype Option<+T> = None | Some(value: T) {

    /** The value, or `default` when there is none. */
    function GetOr(default: T): T {
      match this
      case Some(v) => v
      case None => default
    }
  }
}
