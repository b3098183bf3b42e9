/** The nullable values of the controller (`number | null`) are modelled as Option. */
module Wrappers {

  datatype Option<+T> = None | Some(value: T)
}
