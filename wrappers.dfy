/** The optional settings of the rolling average (a window size, a weights list) may be absent. */
module Wrappers {
  datatype Option<+T> = None | Some(value: T)
}
