/** Java's nullable references, written as an explicit option. */
module Wrappers {

  /** `None` stands for a Java `null`, `Some(v)` for a non-null reference to `v`. */
  datatype Option<+T> = None | Some(value: T)
}
