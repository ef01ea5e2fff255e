/** The Some/None datatype used for nullable pointers and missing fields. */
module Wrappers {

  datatype Option<+T> = None | Some(value: T)
}
