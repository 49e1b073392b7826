/** The optional value used for inputs that may be missing (an absent query parameter). */
module Wrappers {
  datatype Option<+T> = None | Some(value: T)
}
