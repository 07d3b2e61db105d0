/** Optional values, for the nullable pointers and optional settings of the integration. */
module Wrappers {

  datatype Option<+T> = None | Some(value: T)
}
