/** The errors that travel from the upstream client through the services
    to the gateway's error table. */
module Errors {
  import opened Wrappers
  import Numbers

  /** `*openai.Error`: the status and the (already truncated) body of an
      upstream reply whose status was not 200. */
  datatype UpstreamError = UpstreamError(statusCode: int, body: string)

  /** A Go `error` as the gateway inspects it: its text (`Error()`), the
      `*openai.Error` that `errors.As` finds in its chain, if any, and
      whether `errors.Is` finds `context.DeadlineExceeded` or
      `context.Canceled` in it. */
  datatype Error = Error(
    message: string,
    upstream: Option<UpstreamError>,
    deadlineExceeded: bool,
    canceled: bool)

  /** The `(value, error)` pair of a Go call. */
  type Outcome<T> = Result<T, Error>

  /** `&openai.Error{StatusCode: status, Body: body}`; its text is
      "upstream request failed with status <status>". */
  function UpstreamFailure(status: int, body: string): Error {
    Error("upstream request failed with status " + Numbers.FormatInt(status),
          Some(UpstreamError(status, body)), false, false)
  }

  /** A local error (`errors.New`, `fmt.Errorf` without wrapping). */
  function Failure(message: string): Error {
    Error(message, None, false, false)
  }

  /** `context.DeadlineExceeded`, as a timed-out call returns it. */
  const DeadlineExceeded: Error := Error("context deadline exceeded", None, true, false)

  /** `context.Canceled`, as a call abandoned by its caller returns it. */
  const Canceled: Error := Error("context canceled", None, false, true)
}
