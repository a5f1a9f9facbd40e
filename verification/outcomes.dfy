/** Optional values and results with an error, for backend replies and thrown errors. */
module Outcomes {

  datatype Option<+T> = None | Some(value: T) {
    function GetOr(default: T): T {
      match this
      case Some(v) => v
      case None => default
    }
  }

  datatype Result<+T, +E> = Ok(value: T) | Err(error: E)

  /**
   * What a `.single()` read of one row gave: the row, no row (the call reports
   * an error and yields null data), or a thrown exception.
   */
  datatype Lookup<+T> = Row(row: T) | NoRow | Threw
}
