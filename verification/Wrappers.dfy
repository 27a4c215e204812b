/** The optional values used by every model for nullable columns and results. */
module Wrappers {
  datatype Option<+T> = None | Some(value: T)
}
