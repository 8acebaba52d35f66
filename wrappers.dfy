/** The optional value used where the C code reports "undefined" instead of a number. */
module Wrappers {
  datatype Option<T> = None | Some(value: T)
}
