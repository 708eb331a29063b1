/** The optional value used for "no feedback this frame" and for the hidden prediction overlay. */
module Wrappers {

  datatype Option<+T> = None | Some(value: T)
}
