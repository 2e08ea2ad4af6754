/** The optional value used for absent JSON keys, absent React props and
    lookups that may miss. */
module Wrappers {

  datatype Option<+T> = None | Some(value: T) {

    /** `o || fallback` for a value that is present; the falsy cases are
        decided by the caller. */
    function GetOr(fallback: T): T {
      match this
      case Some(v) => v
      case None => fallback
    }
  }
}
