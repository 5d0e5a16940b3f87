/** Python's `None` next to a value: the "unknown" sentinel of the calculators. */
module Wrappers {

  datatype Option<+T> = None | Some(value: T)
}
