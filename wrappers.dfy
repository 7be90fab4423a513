/** Option and Result values used wherever the source has a null, an
    `undefined` or an HTTP error response. */
module Wrappers {

  datatype Option<+T> = None | Some(value: T) {
    /** `value ?? fallback` */
    function GetOr(fallback: T): T {
      match this
      case Some(v) => v
      case None => fallback
    }
  }

  /** An HTTP error status, as raised with FastAPI's HTTPException. */
  datatype Result<+T> = Ok(value: T) | Err(status: int, detail: string)
}
