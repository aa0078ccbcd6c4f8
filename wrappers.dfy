/** Optional values, for the JavaScript `undefined`/`null` and Python `None` of the sources. */
module Wrappers {

  datatype Option<+T> = None | Some(value: T) {
    function GetOr(default: T): T {
      match this
      case Some(v) => v
      case None => default
    }
  }
}
