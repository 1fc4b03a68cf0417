/** The one result shape that the whole project shares. */
module Wrappers {
  datatype Option<+T> = None | Some(value: T)
}
