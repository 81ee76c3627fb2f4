/** The optional-value type shared by the gateway modules. */
module Wrappers {

  /** The conventional Some/None datatype, used where Go returns a value and an ok flag. */
  datatype Option<+T> = None | Some(value: T)
}
