/** The optional value used wherever the program distinguishes nil from a value. */
module Wrappers {
  datatype Option<+T> = None | Some(value: T)
}
