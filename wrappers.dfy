/** Optional values, used for JavaScript's `undefined`/`NaN` and Python's `None`. */
module Wrappers {

  datatype Option<+T> = None | Some(value: T)
}
