/** Optional values, for handles a lookup may leave unset and payloads that do not decode. */
module Wrappers {
  datatype Option<+T> = None | Some(value: T) {
    /** The value held, or `default` when there is none. */
    function GetOr(default: T): T
    {
      match this
      case Some(v) => v
      case None => default
    }
  }
}
