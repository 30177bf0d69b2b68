/** Optional values, used for request fields and query parameters that may be absent. */
module Wrappers {

  /** A value that may be absent, as a missing JSON field or query parameter is in the API. */
  datatype Option<+T> = None | Some(value: T)
}
