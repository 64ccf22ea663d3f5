/** An optional value, used for the results of the line parser. */
module Wrappers {
  datatype Option<+T> = None | Some(value: T)
}
