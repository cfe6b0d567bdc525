/** The conventional optional value, standing in for JavaScript's `null`. */
module Wrappers {
  datatype Option<+T> = None | Some(value: T)
}
