/** The Some/None datatype used for values that may be missing: a number that
    does not parse (JavaScript's NaN) or a result that has not been computed
    (the calculator's `null`). */
module Wrappers {

  datatype Option<+T> = None | Some(value: T)

}
