/**
 * The specialised BDIX page: four fixed request shapes against one IP
 * address, awaited one after another, each aborted after 2000 ms.
 */
module SpecialBdix {
  import opened Wrappers
  import opened Browser
  import opened Text

  const TimeoutMs: nat := 2000

  datatype TestMethod = TestMethod(name: string, url: string, verb: string)

  datatype MethodResult = MethodResult(name: string, url: string, status: string, message: string)

  datatype Report = Report(ip: string, overall: string, methods: seq<MethodResult>)

  /** `testMethods`. */
  function TestMethods(ip: string): (ms: seq<TestMethod>)
    ensures |ms| == 4
    ensures ms[0].url == "http://" + ip && ms[1].url == "https://" + ip
    ensures ms[2].url == "http://" + ip + "/favicon.ico" && ms[3].url == "http://" + ip + "/"
    ensures ms[2].verb == "HEAD" && ms[0].verb == ms[1].verb == ms[3].verb == "GET"
    ensures ms[0].name == "Direct HTTP" && ms[1].name == "Direct HTTPS"
    ensures ms[2].name == "Favicon Test" && ms[3].name == "Root Path"
  {
    [ TestMethod("Direct HTTP", "http://" + ip, "GET"),
      TestMethod("Direct HTTPS", "https://" + ip, "GET"),
      TestMethod("Favicon Test", "http://" + ip + "/favicon.ico", "HEAD"),
      TestMethod("Root Path", "http://" + ip + "/", "GET") ]
  }

  /** The four requests go to four different URLs, each on the entered address over HTTP or HTTPS. */
  lemma {:induction false} MethodUrlsDistinct(ip: string)
    ensures forall i :: 0 <= i < 4 ==>
      StartsWith(TestMethods(ip)[i].url, "http://" + ip) || StartsWith(TestMethods(ip)[i].url, "https://" + ip)
    ensures forall i, j :: 0 <= i < j < 4 ==> TestMethods(ip)[i].url != TestMethods(ip)[j].url
  {
    var ms := TestMethods(ip);
    var h, hs := "http://" + ip, "https://" + ip;
    assert ms[0].url[..|h|] == h && ms[2].url[..|h|] == h && ms[3].url[..|h|] == h && ms[1].url[..|hs|] == hs;
    assert ms[1].url[4] == 's' && ms[0].url[4] == ':' && ms[2].url[4] == ':' && ms[3].url[4] == ':';
    assert |ms[0].url| < |ms[3].url| < |ms[2].url|;
  }

  /** One iteration of the loop: success when the request settles before the abort. */
  function Probe(test: TestMethod, f: FetchOutcome): (r: MethodResult)
    ensures r.name == test.name && r.url == test.url
    ensures r.status == "success" <==> f.Resolved? && f.at < TimeoutMs
    ensures r.status != "success" ==> r.status == "failed" && r.message == MessageText(WithAbort(f, TimeoutMs).error)
  {
    match WithAbort(f, TimeoutMs)
    case Resolved(_) => MethodResult(test.name, test.url, "success", "Connection established")
    case Rejected(e, _) => MethodResult(test.name, test.url, "failed", MessageText(e))
  }

  function CountSuccesses(rs: seq<MethodResult>): (n: nat)
    ensures n <= |rs|
    ensures n > 0 <==> exists i :: 0 <= i < |rs| && rs[i].status == "success"
  {
    if |rs| == 0 then 0
    else
      var rest := CountSuccesses(rs[1..]);
      assert forall i :: 1 <= i < |rs| ==> rs[1..][i - 1] == rs[i];
      (if rs[0].status == "success" then 1 else 0) + rest
  }

  /**
   * `testBDIXConnectivity`: an empty input only raises the prompt; otherwise the
   * four requests run in order and the server is accessible when any of them
   * settles in time. `net(u, v)` is how a request with verb `v` to `u` settles.
   */
  method TestConnectivity(ipAddress: string, net: (string, string) -> FetchOutcome) returns (r: Result<Report, string>)
    ensures ipAddress == "" <==> r.Failure?
    ensures r.Failure? ==> r.error == "Please enter an IP address"
    ensures r.Success? ==>
      && r.value.ip == ipAddress
      && |r.value.methods| == 4
      && (forall i :: 0 <= i < 4 ==>
            var t := TestMethods(ipAddress)[i]; r.value.methods[i] == Probe(t, net(t.url, t.verb)))
      && (r.value.overall == "ACCESSIBLE" <==>
            exists i :: 0 <= i < 4 && var t := TestMethods(ipAddress)[i];
              net(t.url, t.verb).Resolved? && net(t.url, t.verb).at < TimeoutMs)
      && (r.value.overall != "ACCESSIBLE" ==> r.value.overall == "NOT ACCESSIBLE")
  {
    if ipAddress == "" {
      return Failure("Please enter an IP address");
    }
    var tests := TestMethods(ipAddress);
    var methodResults: seq<MethodResult> := [];
    for i := 0 to |tests|
      invariant |methodResults| == i
      invariant forall j :: 0 <= j < i ==> methodResults[j] == Probe(tests[j], net(tests[j].url, tests[j].verb))
    {
      var test := tests[i];
      var result := Probe(test, net(test.url, test.verb));
      methodResults := methodResults + [result];
    }
    var overall := if CountSuccesses(methodResults) > 0 then "ACCESSIBLE" else "NOT ACCESSIBLE";
    r := Success(Report(ipAddress, overall, methodResults));
  }
}
