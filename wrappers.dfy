/** Optional values, standing for a Java reference that may be null or an empty `Optional`. */
module Wrappers {

  datatype Option<+T> = None | Some(value: T)
}
