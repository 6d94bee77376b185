/** The optional value used for `Option<_>` fields of the source. */
module Wrappers {
  datatype Option<T> = None | Some(value: T)
}
