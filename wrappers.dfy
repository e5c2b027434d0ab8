/** The optional value used for cache lookups: `undefined` in the worker becomes `None`. */
module Wrappers {
  datatype Option<+T> = None | Some(value: T)
}
