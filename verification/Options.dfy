// Values that may be absent (Python's None) and calls that may raise.
module Options {
  datatype Option<+T> = None | Some(value: T) {
    /** Python's `x or y` on optional values, where the left side wins if present. */
    function Or(other: Option<T>): Option<T> {
      if Some? then this else other
    }

    function GetOr(default: T): T {
      if Some? then value else default
    }
  }

  datatype Result<+T, +E> = Ok(value: T) | Raised(error: E)
}
