/** The optional value used wherever JavaScript may produce `NaN` or `undefined`. */
module Wrappers {

  datatype Option<+T> = None | Some(value: T)
}
