/** Kotlin's nullable values (`Double?`, `String?`) as an explicit optional type. */
module Wrappers {

  datatype Option<+T> = None | Some(value: T)
}
