/** Optional values: JavaScript's `null`/`undefined` results are `None`. */
module Wrappers {
  datatype Option<+T> = None | Some(value: T)
}
