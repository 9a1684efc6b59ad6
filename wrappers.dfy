/** The optional value used for nullable strings, absent headers and lookups. */
module Wrappers {
  datatype Option<+T> = None | Some(value: T)
}
