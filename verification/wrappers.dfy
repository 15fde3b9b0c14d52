/** A value that may be absent: the model of a field the source initialises
    to `null`. */
module Wrappers {

  datatype Option<+T> = None | Some(value: T)
}
