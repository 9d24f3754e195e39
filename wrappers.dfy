/** The optional value used for "may be absent" results (a nil pointer, an unset error). */
module Wrappers {
  datatype Option<+T> = None | Some(value: T)
}
