/** Optional configuration values and the ways one control cycle can fail. */
module Outcomes {

  /** A command-line option that may or may not have been given. */
  datatype Option<T> = None | Some(value: T) {
    function GetOr(default: T): T {
      match this
      case Some(v) => v
      case None => default
    }
  }

  /** Why a conversion or a write was refused. */
  datatype Error =
    | PercentageOutOfRange(percentage: int)  // a duty percentage outside 0..100
    | PwmOutOfRange(value: int)              // a raw PWM value outside 0..255

  /** A computed value, or the error that aborts the cycle. */
  datatype Result<T> = Ok(value: T) | Err(error: Error)

  /** The outcome of an operation that only has an effect. */
  datatype Outcome = Pass | Fail(error: Error)
}
