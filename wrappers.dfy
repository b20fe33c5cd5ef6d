/** Optional values, for the places where the JavaScript code may yield nothing. */
module Wrappers {
  datatype Option<+T> = None | Some(value: T)
}
