/** The optional value used for Go's nil-able results (a nil object, a nil error). */
module Wrappers {

  datatype Option<+T> = None | Some(value: T)
}
