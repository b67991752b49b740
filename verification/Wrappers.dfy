/** The value or the null the system returns. */
module Wrappers {
  datatype Option<+T> = None | Some(value: T)
}
