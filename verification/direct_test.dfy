/**
 * The direct test page: one `no-cors` `HEAD` fetch with no timeout; the
 * result reports the elapsed time or the error's message.
 */
module DirectTest {
  import opened Browser
  import opened Text

  datatype Page = Page(result: string, testing: bool)

  /**
   * `testConnection`: an empty input shows a prompt; a request that never
   * settles leaves the page testing with an empty result.
   */
  function TestConnection(page: Page, url: string, f: FetchOutcome): (next: Page)
    ensures url == "" ==> next == page.(result := "Please enter a URL")
    ensures url != "" && f.Hangs? ==> next == Page("", true)
    ensures url != "" && f.Resolved? ==> next == Page("SUCCESS: Connected in " + NatToString(f.at) + "ms", false)
    ensures url != "" && f.Rejected? ==> next == Page("FAILED: " + MessageText(f.error), false)
  {
    if url == "" then page.(result := "Please enter a URL")
    else
      match f
      case Hangs => Page("", true)
      case Resolved(at) => Page("SUCCESS: Connected in " + NatToString(at) + "ms", false)
      case Rejected(e, _) => Page("FAILED: " + MessageText(e), false)
  }

  /** The duration shown after a success reads back as the request's elapsed time. */
  lemma SuccessShowsDuration(page: Page, url: string, f: FetchOutcome)
    requires url != "" && f.Resolved?
    ensures var r := TestConnection(page, url, f).result;
      StartsWith(r, "SUCCESS: Connected in ") && EndsWith(r, "ms")
      && ParseDecimal(r[|"SUCCESS: Connected in "|..|r| - 2]) == f.at
  {
    var d := NatToString(f.at);
    var r := "SUCCESS: Connected in " + d + "ms";
    assert r[..|"SUCCESS: Connected in "|] == "SUCCESS: Connected in ";
    assert r[|r| - 2..] == "ms";
    assert r[|"SUCCESS: Connected in "|..|r| - 2] == d;
    ParseNatToString(f.at);
  }

  /** The URL requested: the trimmed input, `http://` by default. */
  function TestUrl(url: string): (r: string)
    ensures HasScheme(r)
    ensures HasScheme(Trim(url)) ==> r == Trim(url)
    ensures !HasScheme(Trim(url)) ==> r == "http://" + Trim(url)
  {
    WithDefaultScheme(Trim(url))
  }
}
