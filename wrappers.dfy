/** Option, the one wrapper the screens need: a nullable value (`T | null` in the source). */
module Wrappers {

  datatype Option<+T> = None | Some(value: T) {

    /** The value, or a default for `null` (the source's `x || default` on nullable counts). */
    function GetOr(default: T): T {
      match this
      case Some(v) => v
      case None => default
    }
  }
}
