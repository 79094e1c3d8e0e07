/**
 * The simple test page: a `no-cors` fetch of the URL as typed, aborted after
 * 3000 ms, with an image load of its favicon as the fallback.
 */
module SimpleTest {
  import opened Wrappers
  import opened Browser

  const TimeoutMs: nat := 3000
  const Reachable := "SUCCESS: Server is reachable"
  const ReachableByImage := "SUCCESS: Server is reachable (image method)"
  const Unreachable := "FAILED: Server is not reachable"

  /** The image promise: only `onload` fulfils it; `onerror` and the timer reject it. */
  function ImageLoads(ev: ImageEvent): Option<bool> {
    match ev
    case ImageLoad(_) => Some(true)
    case ImageError(_) => Some(false)
    case ImageTimer => Some(false)
  }

  /** Whether the image promise fulfils, its timer firing last. */
  function ImageFulfils(evs: seq<ImageEvent>): (ok: bool)
    ensures ok <==> evs != [] && evs[0].ImageLoad?
  {
    FirstSettleLast(ImageLoads, evs, ImageTimer);
    var all := evs + [ImageTimer];
    FirstSettleHead(ImageLoads, all[0], all[1..]);
    assert [all[0]] + all[1..] == all;
    FirstSettle(ImageLoads, all).value
  }

  datatype Page = Page(result: string, isTesting: bool)

  /** `testConnectivity`: the message the page ends with. */
  function TestConnectivity(page: Page, testUrl: string, f: FetchOutcome, image: seq<ImageEvent>): (next: Page)
    ensures testUrl == "" ==> next == page.(result := "Please enter a URL")
    ensures testUrl != "" ==> !next.isTesting
    ensures testUrl != "" ==>
      (next.result == Reachable <==> f.Resolved? && f.at < TimeoutMs)
      && (next.result == ReachableByImage <==> WithAbort(f, TimeoutMs).Rejected? && image != [] && image[0].ImageLoad?)
      && (next.result == Unreachable <==> WithAbort(f, TimeoutMs).Rejected? && !(image != [] && image[0].ImageLoad?))
  {
    if testUrl == "" then page.(result := "Please enter a URL")
    else if WithAbort(f, TimeoutMs).Resolved? then Page(Reachable, false)
    else if ImageFulfils(image) then Page(ReachableByImage, false)
    else Page(Unreachable, false)
  }

  /** The fallback loads the favicon under the URL as typed, without normalising it. */
  function ImageSrc(testUrl: string): (r: string)
    ensures |r| == |testUrl| + 12 && r[..|testUrl|] == testUrl && r[|testUrl|..] == "/favicon.ico"
  {
    testUrl + "/favicon.ico"
  }
}
