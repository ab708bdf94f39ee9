/** Small helper datatype shared by the other modules. */
module Wrappers {

  /** A value that may be missing, as a variable that is still `undefined` in script.js. */
  datatype Option<+T> = None | Some(value: T)
}
