/** Option: a value that a Java reference may or may not hold (null). */
module Wrappers {

  datatype Option<+T> = None | Some(value: T)
}
