/** Shared option type for nullable columns and optional values. */
module Wrappers {

  datatype Option<+T> = None | Some(value: T)
}
