/** The minimal BDIX test page: a `HEAD` fetch of the URL as typed, aborted after 3000 ms. */
module TestBdix {
  import opened Browser

  const TimeoutMs: nat := 3000
  const Online := "Online - Server is accessible"
  const Offline := "Offline - Server is not accessible"

  datatype Page = Page(result: string, isLoading: bool)

  /** `testServer`: nothing happens for an empty URL; otherwise the page reads online or offline. */
  function TestServer(page: Page, url: string, f: FetchOutcome): (next: Page)
    ensures url == "" ==> next == page
    ensures url != "" ==> !next.isLoading && (next.result == Online || next.result == Offline)
    ensures url != "" ==> (next.result == Online <==> f.Resolved? && f.at < TimeoutMs)
  {
    if url == "" then page
    else if WithAbort(f, TimeoutMs).Resolved? then Page(Online, false)
    else Page(Offline, false)
  }
}
