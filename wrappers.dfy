/** The optional value used across the model: JavaScript's `undefined`/`null`
    for a missing field, a callback that is not invoked, a timer with no handle. */
module Wrappers {

  datatype Option<+T> = None | Some(value: T)
}
