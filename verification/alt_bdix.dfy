/**
 * The alternative BDIX page: a direct `fetch`, then an `XMLHttpRequest`
 * promise, then an image load of `/favicon.ico`; the first method that
 * succeeds decides the result.
 */
module AltBdix {
  import opened Wrappers
  import opened Browser
  import opened Text

  const TimeoutMs: nat := 3000
  const EmptyMessage := "Please enter a server URL"

  /** How one of the page's promises settles. */
  datatype Settled = Fulfilled(at: nat) | Rejection(error: Thrown)

  /** The XMLHttpRequest promise's handlers; `open`/`send` throwing rejects it with the thrown value. */
  function XhrReaction(ev: XhrEvent): Option<Settled> {
    match ev
    case ReadyStateChange(readyState, status, at) =>
      if readyState != 4 then None
      else if status > 0 then Some(Fulfilled(at))
      else Some(Rejection(ErrorObject("No response")))
    case NetworkError(_) => Some(Rejection(ErrorObject("Network error")))
    case XhrTimeout(_) => Some(Rejection(ErrorObject("Timeout")))
    case OpenSendThrew => Some(Rejection(OtherValue))
    case TimerFired => Some(Rejection(ErrorObject("Timeout")))
  }

  /** The image promise's handlers. */
  function ImageReaction(ev: ImageEvent): Option<Settled> {
    match ev
    case ImageLoad(at) => Some(Fulfilled(at))
    case ImageError(_) => Some(Rejection(ErrorObject("Image failed to load")))
    case ImageTimer => Some(Rejection(ErrorObject("Image load timeout")))
  }

  /** The XMLHttpRequest promise, its 3000 ms timer firing last. */
  function XhrSettled(evs: seq<XhrEvent>): Settled {
    FirstSettleLast(XhrReaction, evs, TimerFired);
    FirstSettle(XhrReaction, evs + [TimerFired]).value
  }

  /** The image promise, its 3000 ms timer firing last. */
  function ImageSettled(evs: seq<ImageEvent>): Settled {
    FirstSettleLast(ImageReaction, evs, ImageTimer);
    FirstSettle(ImageReaction, evs + [ImageTimer]).value
  }

  /**
   * An image rejection always carries one of the page's two messages, so a
   * failed result reads "Server is not accessible: " and one of them.
   */
  lemma ImageRejectionMessage(evs: seq<ImageEvent>)
    ensures var s := ImageSettled(evs);
      s.Rejection? ==>
        (s.error.ErrorObject? &&
         (MessageText(s.error) == "Image failed to load" || MessageText(s.error) == "Image load timeout"))
    ensures evs == [] ==> ImageSettled(evs) == Rejection(ErrorObject("Image load timeout"))
  {
    var all := evs + [ImageTimer];
    FirstSettleLast(ImageReaction, evs, ImageTimer);
    var i :| 0 <= i < |all| && ImageReaction(all[i]) == FirstSettle(ImageReaction, all);
    if evs == [] {
      assert all == [ImageTimer];
    }
  }

  /** The result card; `via` is the `method` field: which probe answered. */
  datatype Outcome = Outcome(status: string, message: string, time: Option<nat>, via: Option<string>)

  datatype Page = Page(result: Option<Outcome>, testing: bool)

  /**
   * `runBDIXTest` once every promise it awaits has settled. A `fetch` that never
   * settles leaves the page testing with no result.
   */
  function RunBdixTest(page: Page, testUrl: string, fetch: FetchOutcome, xhr: seq<XhrEvent>, image: seq<ImageEvent>): (next: Page)
    ensures testUrl == "" ==> next == page.(result := Some(Outcome("error", EmptyMessage, None, None)))
    ensures testUrl != "" && fetch.Hangs? ==> next == Page(None, true)
    ensures testUrl != "" && !fetch.Hangs? ==> !next.testing && next.result.Some?
    ensures testUrl != "" && fetch.Resolved? ==>
      next.result == Some(Outcome("success", "Server is accessible via direct connection", Some(fetch.at), Some("fetch")))
    ensures testUrl != "" && fetch.Rejected? ==>
      var o := next.result.value;
      && (o.status == "success" <==> XhrSettled(xhr).Fulfilled?)
      && (o.status == "success" ==> o.via == Some("xhr") && o.time == Some(XhrSettled(xhr).at))
      && (o.status == "partial" <==> XhrSettled(xhr).Rejection? && ImageSettled(image).Fulfilled?)
      && (o.status == "partial" ==> o.via == Some("image") && o.time == Some(ImageSettled(image).at))
      && (o.status == "failed" <==> XhrSettled(xhr).Rejection? && ImageSettled(image).Rejection?)
      && (o.status == "failed" ==>
            (&& o.via == Some("all") && o.time == None
             && o.message == "Server is not accessible: " + MessageText(ImageSettled(image).error)))
  {
    if testUrl == "" then page.(result := Some(Outcome("error", EmptyMessage, None, None)))
    else
      match fetch
      case Hangs => Page(None, true)
      case Resolved(at) =>
        Page(Some(Outcome("success", "Server is accessible via direct connection", Some(at), Some("fetch"))), false)
      case Rejected(_, _) =>
        match XhrSettled(xhr)
        case Fulfilled(at) =>
          Page(Some(Outcome("success", "Server is accessible via XMLHttpRequest", Some(at), Some("xhr"))), false)
        case Rejection(_) =>
          match ImageSettled(image)
          case Fulfilled(at) =>
            Page(Some(Outcome("partial", "Server responded to favicon request", Some(at), Some("image"))), false)
          case Rejection(e) =>
            Page(Some(Outcome("failed", "Server is not accessible: " + MessageText(e), None, Some("all"))), false)
  }

  /** The URL the probes use: the trimmed input, `http://` by default; the image loads its favicon. */
  function ProbeUrl(testUrl: string): (r: string)
    ensures HasScheme(r)
    ensures HasScheme(Trim(testUrl)) ==> r == Trim(testUrl)
    ensures !HasScheme(Trim(testUrl)) ==> r == "http://" + Trim(testUrl)
  {
    WithDefaultScheme(Trim(testUrl))
  }

  function ImageUrl(testUrl: string): (r: string)
    ensures StartsWith(r, ProbeUrl(testUrl)) && EndsWith(r, "/favicon.ico")
  {
    var u := ProbeUrl(testUrl);
    assert (u + "/favicon.ico")[..|u|] == u;
    assert (u + "/favicon.ico")[|u + "/favicon.ico"| - |"/favicon.ico"|..] == "/favicon.ico";
    u + "/favicon.ico"
  }
}
