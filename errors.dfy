/**
 * The exceptions that leave the client's operations. The last three are the
 * SDK's own taxonomy (Whatsapp/exceptions.py, all subclasses of
 * TradeUnifoxError); the others are Python or `requests` exceptions that the
 * code lets propagate.
 */
module Errors {
  import opened Json
  import opened Http

  datatype Error =
    | RequestFailed(cause: Cause)          // a RequestException re-raised unchanged
    | ValueError(message: string)
    | TypeError(message: string)
    | OverflowError(message: string)       // a `datetime` or `timedelta` out of its range
    | ShapeError(message: string)          // AttributeError / KeyError / TypeError from an unexpected reply shape
    | AuthenticationError(detail: Value)
    | NetworkError(cause: Cause)
    | APIError(cause: Cause)
  {
    predicate IsTradeUnifoxError() {
      AuthenticationError? || NetworkError? || APIError?
    }
  }

  datatype Result<T> = Ok(value: T) | Err(error: Error)
}
