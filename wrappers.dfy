/** Optional values: `None` is an absent value, JavaScript's `null` or `undefined` as each use documents. */
module Wrappers {

  datatype Option<+T> = None | Some(value: T)
}
