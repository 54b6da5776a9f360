// Small helper types shared by the other modules.
module Common {

  /** An optional value: the model's stand-in for Go's `(value, ok)` and `(value, err)` pairs. */
  datatype Option<+T> = None | Some(value: T)
}
