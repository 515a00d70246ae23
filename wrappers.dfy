/** The optional value used for query parameters that may be absent and for
    numbers that may be NaN. */
module Wrappers {

  datatype Option<+T> = None | Some(value: T)
}
