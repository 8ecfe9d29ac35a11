/** A value that may be absent: Python's `None`, a missing dictionary key, or a lookup that raises. */
module Wrappers {
  datatype Option<+T> = None | Some(value: T)
}
