/** The optional value used wherever a JavaScript expression can yield NaN. */
module Wrappers {

  datatype Option<+T> = None | Some(value: T)
}
