/** Kotlin's nullable values, as an option type. */
module Wrappers {

  /** `T?` in Kotlin: `None` stands for null. */
  datatype Option<T> = None | Some(value: T) {

    /** The elvis operator `this ?: default`. */
    function GetOr(default: T): (r: T)
      ensures Some? ==> r == value
      ensures None? ==> r == default
    {
      match this
      case Some(v) => v
      case None => default
    }
  }
}
