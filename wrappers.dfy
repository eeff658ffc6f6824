/** The optional value used by the lookup tables of the console. */
module Wrappers {
  datatype Option<+T> = None | Some(value: T)
}
