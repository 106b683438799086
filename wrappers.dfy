/** An absent-or-present value, for Java's nullable returns and `Optional`. */
module Wrappers {
  datatype Option<+T> = None | Some(value: T)
}
