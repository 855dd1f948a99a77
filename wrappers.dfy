/** An optional value, standing for JavaScript's `undefined` where the bot can get one. */
module Wrappers {
  datatype Option<+T> = None | Some(value: T)
}
