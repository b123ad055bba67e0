/** Swift optionals (`T?`), written as a datatype. */
module Wrappers {

  datatype Option<+T> = None | Some(value: T)
}
