// Shared value types.
module Options {
  datatype Option<+T> = None | Some(value: T) {
    function GetOr(otherwise: T): T {
      if None? then otherwise else value
    }
  }

  datatype Result<+T, +E> = Ok(value: T) | Err(error: E)
}
