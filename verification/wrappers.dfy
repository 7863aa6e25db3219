/** An optional value: the model's stand-in for Python's `None` results and
    for inputs that may be missing (a non-numeric bid, a lost connection). */
module Wrappers {

  datatype Option<+T> = None | Some(value: T)
}
