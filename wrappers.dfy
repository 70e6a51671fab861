/** Optional values: JavaScript's `undefined` for an absent field or key. */
module Wrappers {

  datatype Option<+T> = None | Some(value: T)
}
