/** Optional values: a header that may be absent, a body that may not parse. */
module Wrappers {
  datatype Option<+T> = None | Some(value: T)
}
