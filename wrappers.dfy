/** Optional values: a timer handle that may be null, a parsed number that may be NaN,
    an index that `findIndex` may not find. */
module Wrappers {
  datatype Option<+T> = None | Some(value: T)
}
