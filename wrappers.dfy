/** A value that may be absent: JavaScript's `null`/`undefined` for one field. */
module Wrappers {
  datatype Option<+T> = None | Some(value: T)
}
