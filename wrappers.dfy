/** A value that may be absent: JavaScript's `undefined` next to a number. */
module Wrappers {
  datatype Option<+T> = None | Some(value: T)
}
