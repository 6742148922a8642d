/** The optional value used where the Java code allows `null`. */
module Wrappers {

  /** `None` stands for a Java `null` (or an absent value); `Some(v)` for a present one. */
  datatype Option<+T> = None | Some(value: T) {

    /** The present value, or `default` when there is none. */
    function GetOr(default: T): (r: T)
      ensures Some? ==> r == value
      ensures None? ==> r == default
    {
      match this
      case Some(v) => v
      case None => default
    }
  }
}
