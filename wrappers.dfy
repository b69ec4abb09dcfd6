/** The optional value used for JavaScript's `number | null` and for values
    that may be `undefined`. */
module Wrappers {

  datatype Option<+T> = None | Some(value: T)
}
