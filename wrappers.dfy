/** Optional values: the model's stand-in for TypeScript's optional fields. */
module Wrappers {

  datatype Option<+T> = None | Some(value: T) {

    /** The value, or `default` when absent (the `x || default` idiom on a field that is never falsy). */
    function GetOr(default: T): T {
      match this
      case Some(v) => v
      case None => default
    }
  }
}
