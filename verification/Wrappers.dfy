/** The option type that stands for the source's nullable columns and optional values. */
module Wrappers {
  datatype Option<+T> = None | Some(value: T)
}
