/** Small shared value types: an optional value and a Go-style error value. */
module Wrappers {

  datatype Option<+T> = None | Some(value: T)

  /** A Go `error`, represented by the text its Error() method returns. */
  datatype Error = Error(text: string)
}
