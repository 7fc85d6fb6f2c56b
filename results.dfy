/** Option and Result wrappers used for absence and for Python exceptions. */
module Results {

  datatype Option<+T> = None | Some(value: T) {
    function GetOr(default: T): T {
      match this
      case Some(v) => v
      case None => default
    }
  }

  /** `Err` carries the exception a Python call would raise. */
  datatype Result<+T, +E> = Ok(value: T) | Err(error: E)
}
