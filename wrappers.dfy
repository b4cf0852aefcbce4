/** Optional values: a landmark that has not been placed yet is absent, not at the origin. */
module Wrappers {

  datatype Option<+T> = None | Some(value: T)

}
