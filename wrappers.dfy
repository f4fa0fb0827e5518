/** The optional value used throughout the model for Python's "key may be absent". */
module Wrappers {

  datatype Option<+T> = None | Some(value: T)

}
