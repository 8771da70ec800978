/** The nullable values of the component (`cachedImagePath`, `jobId`). */
module Wrappers {
  datatype Option<+T> = None | Some(value: T)
}
