/** The optional value used wherever the evaluator may or may not have something to report. */
module Wrappers {
  datatype Option<+T> = None | Some(value: T)
}
