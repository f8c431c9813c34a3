/** A value that may be absent: a field left out of a request body, a JavaScript `undefined`. */
module Wrappers {

  datatype Option<T> = None | Some(value: T)

}
