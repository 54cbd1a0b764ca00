/** The nullable values of the client state (`T | null`) as an explicit option type. */
module Wrappers {

  /** `None` stands for `null`, `Some(v)` for a present value. */
  datatype Option<+T> = None | Some(value: T)
}
