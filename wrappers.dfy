/** The optional value used for C++ null pointers and "not found" results. */
module Wrappers {

  datatype Option<+T> = None | Some(value: T)
}
