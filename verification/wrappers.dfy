/** The nullable value of the application (`T | null` in the source). */
module Wrappers {

  datatype Option<+T> = None | Some(value: T)
}
