/** A value that may be missing: a `NaN` cell of a data frame, a key absent from a dict. */
module Wrappers {
  datatype Option<+T> = None | Some(value: T)
}
