/** Go's "value or nil" idiom: a nil error, a nil Auth, a nil *tls.Config. */
module Wrappers {
  datatype Option<+T> = None | Some(value: T)
}
