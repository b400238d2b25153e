/** The nullable reference of the source, as a value. */
module Wrappers {
  datatype Option<+T> = None | Some(value: T)
}
