/** Kotlin's nullable values (`T?`) are modelled as an Option. */
module Wrappers {

  datatype Option<+T> = None | Some(value: T)
}
