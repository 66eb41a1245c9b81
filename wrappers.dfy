/** The optional value returned by the searches of the model (JavaScript's `undefined` on a miss). */
module Wrappers {
  datatype Option<+T> = None | Some(value: T)
}
