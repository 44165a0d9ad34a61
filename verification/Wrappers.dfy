/** Shared value types. */
module Wrappers {
  /** The conventional optional value: Python's `X | None`. */
  datatype Option<+T> = None | Some(value: T)
}
