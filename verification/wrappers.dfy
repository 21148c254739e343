/** Optional values. `None` stands for JavaScript's `undefined` (an absent
    property, an omitted argument, a `null` return) throughout the model. */
module Wrappers {

  datatype Option<+T> = None | Some(value: T) {

    /** The value, or `default` when absent (JavaScript's `x ?? default`). */
    function GetOr(default: T): T {
      match this
      case Some(v) => v
      case None => default
    }
  }
}
