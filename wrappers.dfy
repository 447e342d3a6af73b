/** The optional value used wherever Python returns None. */
module Wrappers {
  datatype Option<+T> = None | Some(value: T)
}
