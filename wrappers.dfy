/** The optional value used wherever the application answers `None` or pandas yields NaN. */
module Wrappers {
  datatype Option<+T> = None | Some(value: T)
}
