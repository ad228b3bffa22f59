/** Optional values, used for calls into the container runtime that may throw. */
module Wrappers {

  datatype Option<+T> = None | Some(value: T)

}
