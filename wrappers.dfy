/** An optional value: used for "the call did not happen" and "no request was sent". */
module Wrappers {

  datatype Option<+T> = None | Some(value: T)
}
