/** The optional value used across the model for JSON keys that may be absent,
    replies that may be null and lookups that may miss. */
module Wrappers {

  datatype Option<+T> = None | Some(value: T) {

    /** The value, or `default` when there is none (Python `dict.get(k, d)` for a missing key, JavaScript `x ?? d`). */
    function GetOr(default: T): T {
      match this
      case Some(v) => v
      case None => default
    }
  }
}
