/** The optional value used wherever the source returns a null-or-object result. */
module Wrappers {

  datatype Option<+T> = None | Some(value: T)
}
