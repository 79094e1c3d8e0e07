/**
 * The CORS-bypass page: a `no-cors` `HEAD` fetch raced against a 3000 ms
 * timer, and, when that finds the server inaccessible, an image load in which
 * even an error counts as a response.
 */
module CorsTest {
  import opened Wrappers
  import opened Browser
  import opened Text

  const TimeoutMs: nat := 3000
  const TimeoutMessage := "Server is not accessible (timeout)"

  datatype Verdict = Verdict(status: string, message: string)

  /** `testWithFetch`: whichever of the request and the timer settles the promise first. */
  function TestWithFetch(f: FetchOutcome): (v: Verdict)
    ensures v.status == "accessible" <==> f.Resolved? && f.at < TimeoutMs
    ensures v.status != "accessible" ==> v.status == "inaccessible"
    ensures v.message == TimeoutMessage <==> f.Hangs? || f.at >= TimeoutMs
  {
    match f
    case Resolved(at) =>
      if at < TimeoutMs then Verdict("accessible", "Server is accessible") else Verdict("inaccessible", TimeoutMessage)
    case Rejected(_, at) =>
      if at < TimeoutMs then Verdict("inaccessible", "Server is not accessible") else Verdict("inaccessible", TimeoutMessage)
    case Hangs => Verdict("inaccessible", TimeoutMessage)
  }

  /** The image probe's handlers: a load and an error both mean the server answered. */
  function ImageReaction(ev: ImageEvent): Option<Verdict> {
    match ev
    case ImageLoad(_) => Some(Verdict("accessible", "Server is accessible"))
    case ImageError(_) => Some(Verdict("accessible", "Server responded (likely accessible)"))
    case ImageTimer => Some(Verdict("inaccessible", TimeoutMessage))
  }

  /** `testWithImage`, its timer firing last. */
  function TestWithImage(evs: seq<ImageEvent>): Verdict {
    FirstSettleLast(ImageReaction, evs, ImageTimer);
    FirstSettle(ImageReaction, evs + [ImageTimer]).value
  }

  /**
   * Every handler of the image probe settles it, so the first event decides:
   * accessible exactly when the image loads or fails before the timer fires.
   */
  lemma ImageVerdict(evs: seq<ImageEvent>)
    ensures TestWithImage(evs).status == "accessible" <==> evs != [] && !evs[0].ImageTimer?
    ensures TestWithImage(evs).status != "accessible" ==> TestWithImage(evs) == Verdict("inaccessible", TimeoutMessage)
  {
    var all := evs + [ImageTimer];
    FirstSettleLast(ImageReaction, evs, ImageTimer);
    assert ImageReaction(all[0]).Some?;
    FirstSettleHead(ImageReaction, all[0], all[1..]);
    assert [all[0]] + all[1..] == all;
  }

  /** `img.src`: the favicon, with a `t` query parameter set to the current time to defeat caching. */
  function ImageSrc(url: string, now: nat): (r: string)
    ensures StartsWith(r, url + "/favicon.ico?t=")
  {
    var p := url + "/favicon.ico?t=";
    assert (p + NatToString(now))[..|p|] == p;
    p + NatToString(now)
  }

  datatype Page = Page(result: Option<Verdict>, testing: bool)

  /** `runTest`: an empty input shows an error; otherwise the fetch verdict, or the image verdict after it. */
  function RunTest(page: Page, serverUrl: string, f: FetchOutcome, image: seq<ImageEvent>): (next: Page)
    ensures serverUrl == "" ==> next == page.(result := Some(Verdict("error", "Please enter a server URL")))
    ensures serverUrl != "" ==> !next.testing && next.result.Some?
    ensures serverUrl != "" ==>
      (next.result.value.status == "accessible" <==>
        (f.Resolved? && f.at < TimeoutMs) || TestWithImage(image).status == "accessible")
    ensures serverUrl != "" && TestWithFetch(f).status == "inaccessible" ==> next.result == Some(TestWithImage(image))
    ensures serverUrl != "" && next.result.value.status != "accessible" ==>
      next.result == Some(Verdict("inaccessible", TimeoutMessage))
  {
    if serverUrl == "" then page.(result := Some(Verdict("error", "Please enter a server URL")))
    else
      var fetched := TestWithFetch(f);
      var v := if fetched.status == "inaccessible" then TestWithImage(image) else fetched;
      ImageVerdict(image);
      Page(Some(v), false)
  }

  /** The probed URL: the trimmed input, `http://` by default. */
  function TestUrl(serverUrl: string): (r: string)
    ensures HasScheme(r)
    ensures HasScheme(Trim(serverUrl)) ==> r == Trim(serverUrl)
    ensures !HasScheme(Trim(serverUrl)) ==> r == "http://" + Trim(serverUrl)
  {
    WithDefaultScheme(Trim(serverUrl))
  }

  datatype Style = Style(background: string, color: string, border: string)

  const Red := Style("#f8d7da", "#721c24", "1px solid #f5c6cb")
  const Grey := Style("#f8f9fa", "#6c757d", "1px solid #ddd")

  /** `getStatusStyle`: an error is drawn like an inaccessible server; unknown statuses are grey. */
  function StatusStyle(status: string): (s: Style)
    ensures status == "error" || status == "inaccessible" <==> s == Red
    ensures s == Grey <==> status !in {"accessible", "inaccessible", "error", "timeout"}
  {
    match status
    case "accessible" => Style("#d4edda", "#155724", "1px solid #c3e6cb")
    case "inaccessible" => Red
    case "error" => Red
    case "timeout" => Style("#d1ecf1", "#0c5460", "1px solid #bee5eb")
    case _ => Grey
  }
}
