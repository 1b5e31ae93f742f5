/** Optional values, for the absent query parameter, the body that is not JSON
    and the string that is not a date. */
module Wrappers {
  datatype Option<+T> = None | Some(value: T)
}
