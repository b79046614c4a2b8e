/** Optional values: Go pointers that may be nil, and results that may be absent. */
module Wrappers {

  datatype Option<+T> = None | Some(value: T)
  {
    /** `ptr.Deref`: the value, or a default for nil. */
    function GetOr(default: T): T {
      match this
      case Some(v) => v
      case None => default
    }
  }
}
