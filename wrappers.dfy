/** An optional value: a Swift optional, a weak reference that may have been cleared, a Future
    that may still be pending. */
module Wrappers {
  datatype Option<+T> = None | Some(value: T)
}
