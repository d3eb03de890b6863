/** Small value types shared by the three components. */
module Wrappers {

  /** A value that may be absent: `undefined`, `null` or `NaN` on the JavaScript side. */
  datatype Option<+T> = None | Some(value: T)
  {
    /** The held value, or `fallback` when there is none. */
    function GetOr(fallback: T): T
    {
      match this
      case Some(v) => v
      case None => fallback
    }
  }

  /** JavaScript's `x || fallback`: the fallback when `x` is absent or holds `falsy`, the one
      other falsy value of its type (0 for a number, "" for a string). */
  function OrFallback<T(==)>(x: Option<T>, falsy: T, fallback: T): (r: T)
    ensures x.Some? && x.value != falsy ==> r == x.value
    ensures x.None? || x.value == falsy ==> r == fallback
  {
    if x.Some? && x.value != falsy then x.value else fallback
  }

  /** The two kinds of toast notification the components emit. */
  datatype ToastKind = SuccessToast | ErrorToast
}
