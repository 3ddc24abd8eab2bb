/** Python's `Optional[T]`. */
module Wrappers {

  datatype Option<+T> = None | Some(value: T)
}
