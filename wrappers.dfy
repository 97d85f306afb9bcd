/** Optional values: Java's nullable references and `Optional<T>`. */
module Wrappers {

  datatype Option<+T> = None | Some(value: T)
}
