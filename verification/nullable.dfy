/** Kotlin's nullable values (`T?`) and the elvis operator `?:`. */
module Nullable {

  /** `None` stands for Kotlin's `null`, `Some(v)` for a non-null `v`. */
  datatype Option<+T> = None | Some(value: T) {

    /** `this ?: fallback`: the value when it is non-null, otherwise the fallback. */
    function OrElse(fallback: T): (r: T)
      ensures Some? ==> r == value
      ensures None? ==> r == fallback
    {
      match this
      case Some(v) => v
      case None => fallback
    }

    /** `this ?: other` where `other` is itself nullable. */
    function Or(other: Option<T>): (r: Option<T>)
      ensures r.None? <==> None? && other.None?
      ensures Some? ==> r == this
      ensures None? ==> r == other
    {
      if Some? then this else other
    }
  }
}
