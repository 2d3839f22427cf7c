/** The optional value, used for the dashboard's `null` snapshot. */
module Wrappers {

  datatype Option<+T> = None | Some(value: T)
}
