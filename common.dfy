/** Small value types shared by the controllers. */
module Common {

  /** A value that may be absent: a `null` reference or an unset attribute. */
  datatype Option<T> = None | Some(value: T)
}
