/** An optional value, standing for Go's (value, ok) pairs and nil-able results. */
module Wrappers {

  datatype Option<+T> = None | Some(value: T)
}
