/** Optional values: an unset configuration id, or a role id that does not resolve. */
module Wrappers {

  datatype Option<+T> = None | Some(value: T)
}
