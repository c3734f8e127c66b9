/** A value that may be absent: the source's `null` and its missing storage key. */
module Wrappers {
  datatype Option<T> = None | Some(value: T)
}
