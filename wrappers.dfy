/** A value that may be missing: a JavaScript `null`/`undefined` field or an absent storage key. */
module Wrappers {
  datatype Option<+T> = None | Some(value: T)
}
