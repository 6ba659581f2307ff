/** The optional value that Swift writes as `T?`: `None` is `nil`. */
module Wrappers {

  datatype Option<+T> = None | Some(value: T)
}
