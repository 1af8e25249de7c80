/** The optional value standing for the dashboard's nullable fields and for
    rows the settings store may or may not return. */
module Wrappers {

  datatype Option<+T> = None | Some(value: T)
}
