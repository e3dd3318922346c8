/** The optional-value datatype used for values that may be absent: a missing
    localStorage item, a `parseInt` that yields NaN, an Invalid Date. */
module Wrappers {

  datatype Option<+T> = None | Some(value: T)
}
