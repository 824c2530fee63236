/** The optional-value type shared by the other modules: a C++ pointer that
    may be null, a COM call that may fail to produce its object. */
module Wrappers {

  datatype Option<+T> = None | Some(value: T) {

    /** The carried value, or `default` when there is none. */
    function GetOr(default: T): T {
      match this
      case Some(v) => v
      case None => default
    }
  }
}
