/** The optional value returned by the column reader. */
module Wrappers {

  datatype Option<+T> = None | Some(value: T)
}
