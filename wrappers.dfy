/** The optional value used for the engine references that may be missing. */
module Wrappers {
  datatype Option<+T> = None | Some(value: T)
}
