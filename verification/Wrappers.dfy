/** The two result shapes every module shares. */
module Wrappers {
  datatype Option<+T> = None | Some(value: T)
}
