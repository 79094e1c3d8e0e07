/**
 * The server-check endpoint: a HEAD request with a five-second limit,
 * classified as working, not working with the status code, or not working
 * with the error message.
 */
module ApiCheckServer {
  import opened Wrappers

  const TimeoutMs: nat := 5000

  /** What the HEAD request did: an answer with its status, or a throw (the timeout among them). */
  datatype HeadOutcome = Answered(statusCode: nat, at: nat) | Raised(message: string) | NoAnswer

  datatype Body =
    | Missing(error: string)
    | Working(url: string)
    | NotWorkingStatus(url: string, statusCode: nat)
    | NotWorkingError(url: string, error: string)

  datatype Response = Response(httpStatus: nat, body: Body)

  /** `response.ok`: a status in 200-299. */
  predicate Ok(statusCode: nat) {
    200 <= statusCode <= 299
  }

  /** The message an aborted request rejects with once the five seconds pass. */
  const TimeoutMessage := "The operation was aborted due to timeout"

  /** `GET`: 400 without a `url`; otherwise 200 with the classification, echoing the `url`. */
  function Get(url: Option<string>, outcome: HeadOutcome): (r: Response)
    ensures url.None? || url.value == "" <==> r == Response(400, Missing("URL parameter is missing"))
    ensures url.Some? && url.value != "" ==> r.httpStatus == 200 && !r.body.Missing? && r.body.url == url.value
    ensures url.Some? && url.value != "" ==>
      (r.body.Working? <==> outcome.Answered? && outcome.at < TimeoutMs && Ok(outcome.statusCode))
    ensures url.Some? && url.value != "" && outcome.Answered? && outcome.at < TimeoutMs && !Ok(outcome.statusCode) ==>
      r.body == NotWorkingStatus(url.value, outcome.statusCode)
    ensures url.Some? && url.value != "" && outcome.Raised? ==> r.body == NotWorkingError(url.value, outcome.message)
    ensures url.Some? && url.value != "" && (outcome.NoAnswer? || (outcome.Answered? && outcome.at >= TimeoutMs)) ==>
      r.body == NotWorkingError(url.value, TimeoutMessage)
  {
    if url.None? || url.value == "" then Response(400, Missing("URL parameter is missing"))
    else
      var u := url.value;
      match outcome
      case Raised(message) => Response(200, NotWorkingError(u, message))
      case NoAnswer => Response(200, NotWorkingError(u, TimeoutMessage))
      case Answered(code, at) =>
        if at >= TimeoutMs then Response(200, NotWorkingError(u, TimeoutMessage))
        else if Ok(code) then Response(200, Working(u))
        else Response(200, NotWorkingStatus(u, code))
  }
}
