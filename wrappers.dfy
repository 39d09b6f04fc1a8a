/** The optional value used for Swift's `Optional` and implicitly unwrapped `String!`. */
module Wrappers {
  datatype Option<+T> = None | Some(value: T)
}
