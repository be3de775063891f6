/** Optional values: JavaScript's `undefined`/`null` and the "not found" of `Array.find`. */
module Wrappers {
  datatype Option<+T> = None | Some(value: T)
}
