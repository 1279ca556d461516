/** The JavaScript "value or null/undefined" pattern, as a datatype. */
module Options {

  /** `None` stands for a `null` or `undefined` slot; `Some(v)` for a present value. */
  datatype Option<+T> = None | Some(value: T) {

    /** The value if present, otherwise `default` (the `x || default` idiom on a non-falsy `x`). */
    function GetOr(default: T): (r: T)
      ensures Some? ==> r == value
      ensures None? ==> r == default
    {
      match this
      case Some(v) => v
      case None => default
    }
  }
}
