/**
 * What the `requests` library hands back for one call, and its
 * `raise_for_status` rule.
 */
module Http {
  import opened Wrappers
  import opened Json

  /** A call that got no response: `requests.exceptions.Timeout` or another transport failure. */
  datatype Fault = Timeout | ConnectionFailed

  /** The outcome of one transport call; a response body is a decoded JSON object. */
  datatype Reply = Lost(fault: Fault) | Response(status: int, body: map<string, Value>)

  /** Why a call raised a `requests.exceptions.RequestException`. */
  datatype Cause = Transport(fault: Fault) | HttpStatus(code: int)

  /** An HTTP error status in the sense of `raise_for_status`: 4xx or 5xx. */
  predicate IsErrorStatus(status: int) {
    400 <= status < 600
  }

  /**
   * The exception a call followed by `raise_for_status()` raises, or None.
   * Statuses outside 400..599 (1xx, 2xx, 3xx) do not raise.
   */
  function RaiseForStatus(reply: Reply): (c: Option<Cause>)
    ensures c.None? <==> reply.Response? && !IsErrorStatus(reply.status)
    ensures reply.Lost? ==> c == Some(Transport(reply.fault))
    ensures reply.Response? && c.Some? ==> c.value == HttpStatus(reply.status)
  {
    match reply
    case Lost(f) => Some(Transport(f))
    case Response(status, _) => if IsErrorStatus(status) then Some(HttpStatus(status)) else None
  }

  predicate IsUnauthorized(reply: Reply) {
    reply.Response? && reply.status == 401
  }

  /**
   * The reply to the i-th transport call of an operation; a server that has
   * no further replies is unreachable.
   */
  function At(replies: seq<Reply>, i: nat): Reply {
    if i < |replies| then replies[i] else Lost(ConnectionFailed)
  }
}
