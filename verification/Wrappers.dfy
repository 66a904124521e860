/** Values that may be absent: a nullable column, a `None` answer. */
module Wrappers {
  datatype Option<+T> = None | Some(value: T)
}
