/** The optional value used for the JavaScript `null`-or-value state of the home screen. */
module Wrappers {

  datatype Option<+T> = None | Some(value: T)
}
