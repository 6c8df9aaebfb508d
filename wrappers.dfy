/** The nullable result of a position search: `null` in the system is None. */
module Wrappers {
  datatype Option<T> = None | Some(value: T)
}
