/** The optional-value datatype used wherever the system reads a value that
    may be absent (`undefined` or `null` in the program). */
module Wrappers {

  datatype Option<+T> = None | Some(value: T)
}
