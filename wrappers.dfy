/** Optional values: a request field that may be absent (undefined or null, or for a parsed field, not a number). */
module Wrappers {

  datatype Option<+T> = None | Some(value: T)
}
