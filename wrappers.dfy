/** Optional values: None stands for a JavaScript `undefined` (or `null`). */
module Wrappers {

  datatype Option<+T> = None | Some(value: T) {

    /** The value, or a default when there is none (JavaScript's `x || d` for an object-typed `x`). */
    function GetOr(default: T): (r: T)
      ensures Some? ==> r == value
      ensures None? ==> r == default
    {
      match this
      case Some(v) => v
      case None => default
    }
  }
}
