/** The optional value returned by the case lookup. */
module Wrappers {
  datatype Option<+T> = None | Some(value: T)
}
