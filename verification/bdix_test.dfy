/**
 * The BDIX connectivity page: one entered URL, five paths probed at once with
 * `HEAD` requests that abort after 2000 ms; the server is accessible when any
 * path answers.
 */
module BdixTest {
  import opened Wrappers
  import opened Browser
  import opened Text

  const TestPaths: seq<string> := ["", "/favicon.ico", "/index.html", "/index.php", "/robots.txt"]
  const PathTimeoutMs: nat := 2000
  const EmptyPrompt := "Please enter a URL"

  /** `normalizeUrl`: trim, default to `http://`, drop one trailing slash. */
  function NormalizeUrl(url: string): (r: string)
    ensures var w := WithDefaultScheme(Trim(url));
      && (r == w || r + "/" == w)
      && (EndsWith(w, "/") <==> r != w)
    ensures StartsWith(r, "http:/") || StartsWith(r, "https:/")
  {
    var w := WithDefaultScheme(Trim(url));
    SchemeKeepsShortPrefix(w);
    if EndsWith(w, "/") then DropLast(w) else w
  }

  /** `s.slice(0, -1)` on a string that ends with a slash. */
  function DropLast(w: string): (r: string)
    requires EndsWith(w, "/")
    ensures r + "/" == w
  {
    w[..|w| - 1]
  }

  lemma SchemeKeepsShortPrefix(w: string)
    requires HasScheme(w)
    ensures |w| >= 7
    ensures StartsWith(w, "http:/") || StartsWith(w, "https:/")
    ensures StartsWith(w[..|w| - 1], "http:/") || StartsWith(w[..|w| - 1], "https:/")
  {
    if StartsWith(w, "http://") {
      assert w[..6] == "http://"[..6];
    } else {
      assert w[..7] == "https://"[..7];
    }
  }

  /** A URL that already has a scheme and ends with a slash loses exactly that slash. */
  lemma NormalizeSchemedSlash(a: string)
    requires a != [] && !IsSpace(a[0]) && a[|a| - 1] == '/'
    requires HasScheme(a)
    ensures NormalizeUrl(a) == a[..|a| - 1]
  {
    TrimUntouched(a);
    assert EndsWith(a, "/") by { assert a[|a| - 1..] == "/"; }
  }

  /** Only one slash is dropped, so the normalisation is not idempotent on a doubled slash. */
  lemma NormalizeDropsOneSlash()
    ensures NormalizeUrl("http://x//") == "http://x/"
    ensures NormalizeUrl("http://x/") == "http://x"
  {
    var a := "http://x//";
    assert HasScheme(a) by { assert a[..7] == "http://"; }
    NormalizeSchemedSlash(a);
    assert a[..|a| - 1] == "http://x/";
    var b := "http://x/";
    assert HasScheme(b) by { assert b[..7] == "http://"; }
    NormalizeSchemedSlash(b);
    assert b[..|b| - 1] == "http://x";
  }

  /** Blank input passes the emptiness guard and is normalised to a URL with no host. */
  lemma BlankInputUrl()
    ensures NormalizeUrl("   ") == "http:/"
  {
    TrimOfSpaces("   ");
  }

  /** `path ? baseUrl + path : baseUrl`. */
  function FullUrl(baseUrl: string, path: string): (r: string)
    ensures StartsWith(r, baseUrl) && r[|baseUrl|..] == path
  {
    if path == "" then baseUrl else baseUrl + path
  }

  datatype PathResult = PathResult(path: string, status: string, url: string, error: Option<string>)

  /** `testSinglePath`: success when the request settles before the abort, else the error's message. */
  function TestSinglePath(baseUrl: string, path: string, f: FetchOutcome): (r: PathResult)
    ensures r.path == path && r.url == FullUrl(baseUrl, path)
    ensures r.status == "success" <==> f.Resolved? && f.at < PathTimeoutMs
    ensures r.status != "success" ==> r.status == "failed" && r.error.Some?
    ensures (f.Hangs? || f.at >= PathTimeoutMs) ==> r.error == Some(AbortMessage)
    ensures f.Rejected? && f.at < PathTimeoutMs ==> r.error == Some(MessageText(f.error))
  {
    match WithAbort(f, PathTimeoutMs)
    case Resolved(_) => PathResult(path, "success", FullUrl(baseUrl, path), None)
    case Rejected(e, _) => PathResult(path, "failed", FullUrl(baseUrl, path), Some(MessageText(e)))
  }

  /** `testResults.some(result => result.status === 'success')`. */
  predicate AnySuccess(details: seq<PathResult>) {
    exists i :: 0 <= i < |details| && details[i].status == "success"
  }

  datatype Report = Report(server: string, overall: string, details: seq<PathResult>)

  /** The path probes of `Promise.all`, in `testPaths` order; `net(u)` is how the request to `u` settles. */
  function Details(baseUrl: string, net: string -> FetchOutcome): (d: seq<PathResult>)
    ensures |d| == |TestPaths|
    ensures forall i :: 0 <= i < |TestPaths| ==> d[i] == TestSinglePath(baseUrl, TestPaths[i], net(FullUrl(baseUrl, TestPaths[i])))
  {
    seq(|TestPaths|, i requires 0 <= i < |TestPaths| => TestSinglePath(baseUrl, TestPaths[i], net(FullUrl(baseUrl, TestPaths[i]))))
  }

  /**
   * `testServer`: an empty input only raises the prompt (`Failure`); otherwise
   * the page shows one report for the normalised URL.
   */
  function TestServer(testUrl: string, net: string -> FetchOutcome): (r: Result<Report, string>)
    ensures testUrl == "" <==> r.Failure?
    ensures r.Failure? ==> r.error == EmptyPrompt
    ensures r.Success? ==>
      && r.value.server == NormalizeUrl(testUrl)
      && r.value.details == Details(NormalizeUrl(testUrl), net)
      && (r.value.overall == "ACCESSIBLE" || r.value.overall == "NOT ACCESSIBLE")
      && (r.value.overall == "ACCESSIBLE" <==>
            exists i :: 0 <= i < |TestPaths| &&
              var f := net(FullUrl(NormalizeUrl(testUrl), TestPaths[i])); f.Resolved? && f.at < PathTimeoutMs)
  {
    if testUrl == "" then Failure(EmptyPrompt)
    else
      var base := NormalizeUrl(testUrl);
      var details := Details(base, net);
      Success(Report(base, if AnySuccess(details) then "ACCESSIBLE" else "NOT ACCESSIBLE", details))
  }
}
