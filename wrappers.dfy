/** The optional value used for Python's `None`, a missing key, or an exception that a caller catches. */
module Wrappers {
  datatype Option<+T> = None | Some(value: T)

  /** `d.get(key, default)` once the lookup is done: the value, or `default` when the key is missing. */
  function GetOr<T>(o: Option<T>, default: T): T {
    if o.Some? then o.value else default
  }
}
