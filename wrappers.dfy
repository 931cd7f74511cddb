/** Optional values, used where a partial inverse may have nothing to return. */
module Wrappers {

  datatype Option<+T> = None | Some(value: T)
}
