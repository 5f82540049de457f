/** The optional value used wherever the front end has `null`, `undefined` or NaN. */
module Wrappers {
  datatype Option<+T> = None | Some(value: T)
}
