/** The value-or-nothing type the whole model shares. */
module Wrappers {
  datatype Option<+T> = None | Some(value: T)
}
