/** Java references that may be null, as values. */
module Nullable {

  /** `None` stands for Java's `null`. */
  datatype Option<+T> = None | Some(value: T)
}
