/** Option: a value that may be missing (a JavaScript `NaN` or a report not posted). */
module Wrappers {

  datatype Option<+T> = None | Some(value: T)
}
