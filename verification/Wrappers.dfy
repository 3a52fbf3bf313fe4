/** The optional value used for Python's "something or None". */
module Wrappers {
  datatype Option<+T> = None | Some(value: T)
}
