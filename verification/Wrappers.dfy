/** The optional value used by every module of the project: SQL NULL, a nil pointer, or `undefined`. */
module Wrappers {
  datatype Option<+T> = None | Some(value: T)
}
