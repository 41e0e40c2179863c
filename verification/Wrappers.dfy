/** A value that may be absent, for every module that needs one. */
module Wrappers {
  datatype Option<+T> = None | Some(value: T)
}
