/** Optional values, the Dafny counterpart of Swift's `T?`. */
module Wrappers {
  datatype Option<T> = None | Some(value: T)
  {
    /** Swift's `x ?? fallback`. */
    function GetOr(fallback: T): (r: T)
      ensures Some? ==> r == value
      ensures None? ==> r == fallback
    {
      match this
      case Some(v) => v
      case None => fallback
    }
  }
}
