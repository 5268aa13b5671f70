/** The optional value returned by an error's cause accessor. */
module Wrappers {

  datatype Option<+T> = None | Some(value: T)
}
