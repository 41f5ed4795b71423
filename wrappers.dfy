/** The optional value returned by the parsers of this project. */
module Wrappers {
  datatype Option<+T> = None | Some(value: T)
}
