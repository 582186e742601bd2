/** Optional values, standing in for Java's null and for the exceptions the
    parsers throw. */
module Wrappers {

  datatype Option<+T> = None | Some(value: T)
}
