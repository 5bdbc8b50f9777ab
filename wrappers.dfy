/** The optional value used wherever the source has a value that may be missing. */
module Wrappers {

  datatype Option<T> = None | Some(value: T)
}
