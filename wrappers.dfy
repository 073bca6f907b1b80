/** A value that may be absent: a null pointer, an `undefined` or a JavaScript `null`. */
module Wrappers {

  datatype Option<+T> = None | Some(value: T)
}
