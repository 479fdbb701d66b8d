/** Small value types shared by every module of the model. */
module Common {

  /** A value that may be absent (JavaScript's `undefined`, SQL's NULL). */
  datatype Option<+T> = None | Some(value: T)

  /** The outcome of a statement against the store: the row(s) or the error the store raised. */
  datatype Result<+T, +E> = Ok(value: T) | Err(error: E)

  /**
   * A key of a request body or insert object: left out (`Omitted`, so a
   * column default applies or an update leaves the column alone) or given.
   */
  datatype Field<+T> = Omitted | Given(value: T) {
    /** The given value, or `fallback` when the key was left out. */
    function Or(fallback: T): T {
      match this
      case Omitted => fallback
      case Given(v) => v
    }
  }
}
