/** The optional value used wherever the JavaScript code returns `null` or a failed match. */
module Wrappers {
  datatype Option<+T> = None | Some(value: T)
}
