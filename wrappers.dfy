/** Optional values, standing for JavaScript's absent, null or falsy fields. */
module Wrappers {

  datatype Option<+T> = None | Some(value: T)
}
