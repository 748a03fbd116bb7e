/** A nullable value: `T | null` in the application's record types. */
module Wrappers {

  datatype Option<+T> = None | Some(value: T)
}
