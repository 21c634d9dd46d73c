/** Shared wrapper types. */
module Common {

  /** A value that may be absent: a JavaScript `null` handle, a model that
      has not finished loading, an unset configuration field. */
  datatype Option<+T> = None | Some(value: T)
}
