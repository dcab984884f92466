/** The optional value used for Go's `(value, err)` pairs: `None` stands for a non-nil error. */
module Wrappers {

  datatype Option<+T> = None | Some(value: T)
}
