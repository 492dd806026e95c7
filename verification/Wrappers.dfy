/** The optional value that stands for a nullable column. */
module Wrappers {
  datatype Option<+T> = None | Some(value: T)
}
