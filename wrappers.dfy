/** An optional value: the model's stand-in for `null`, `undefined` and an absent storage key. */
module Wrappers {
  datatype Option<+T> = None | Some(value: T)
}
