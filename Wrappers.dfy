/** Optional values, used for configuration fields that may be absent and
    for checks that may or may not produce an error message. */
module Wrappers {

  datatype Option<+T> = None | Some(value: T)

  /** The value held by `o`, or `default` when there is none. */
  function GetOr<T>(o: Option<T>, default: T): T {
    match o
    case Some(v) => v
    case None => default
  }
}
