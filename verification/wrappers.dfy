/** The Option type standing for Java's nullable fields and `Optional` values. */
module Wrappers {

  datatype Option<+T> = None | Some(value: T)
}
