/** Optional values and results with an error, the two shapes the recall
    assistant's Python code expresses with `None` and with exceptions. */
module Wrappers {

  datatype Option<+T> = None | Some(value: T) {
    function GetOr(default: T): T {
      match this
      case Some(v) => v
      case None => default
    }
  }

  /** An upstream failure (non-2xx status or transport error) carries a reason. */
  datatype Error = UpstreamError(reason: string)

  datatype Result<+T> = Ok(value: T) | Err(error: Error)
}
