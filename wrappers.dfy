/** The optional value that a Python lookup returns: `None`, or a value. */
module Wrappers {

  datatype Option<+T> = None | Some(value: T)
}
