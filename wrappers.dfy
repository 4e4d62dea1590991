/** The optional value used wherever the Go code returns a nil pointer, a nil
    slice or a nil IP in place of a value. */
module Wrappers {

  datatype Option<+T> = None | Some(value: T)
}
