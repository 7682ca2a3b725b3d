/** The optional values and the error-or-value results shared by every module.
    Python's `None` becomes `None`; a raised exception becomes `Err`. */
module Outcomes {

  datatype Option<+T> = None | Some(value: T) {
    /** `value if value is not None else default` */
    function GetOr(default: T): T {
      match this
      case Some(v) => v
      case None => default
    }
  }

  datatype Result<+T, +E> = Ok(value: T) | Err(error: E)
}
