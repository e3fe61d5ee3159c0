/** The optional value used throughout the model: JavaScript's `undefined`
    (an absent body field or cookie, a failed match) is `None`. */
module Wrappers {

  datatype Option<+T> = None | Some(value: T)
}
