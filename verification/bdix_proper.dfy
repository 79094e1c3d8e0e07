/**
 * The proper-BDIX page: each selected server's paths are tried one URL at a
 * time, each attempt with its own settle-once XMLHttpRequest and a 2000 ms
 * timer; the first URL that answers makes the server accessible.
 */
module BdixProper {
  import opened Wrappers
  import opened Browser
  import Selection
  import Seqs

  datatype Server = Server(name: string, ip: string, paths: seq<string>)

  datatype TestResult = TestResult(server: string, ip: string, status: string, message: string, responseTime: Option<nat>)

  const AttemptTimeoutMs: nat := 2000
  const NoPathMessage := "No accessible paths found"
  const SelectPrompt := "Please select at least one server to test"

  const Catalogue: seq<Server> := [
    Server("SAMONLINE", "172.16.50.4", ["/"]),
    Server("DISCOVERY FTP", "discoveryftp.net", ["/"]),
    Server("WOW MOVIE ZONE", "172.27.27.84", ["/"]),
    Server("ICC COMMUNICATION", "10.16.100.244", ["/"]),
    Server("BUSINESS NET", "103.58.73.9", ["/"])
  ]

  /** `testUrls`: one `http://` URL per path, in path order. */
  function Urls(server: Server): (r: seq<string>)
    ensures |r| == |server.paths|
    ensures forall i :: 0 <= i < |r| ==> r[i] == "http://" + server.ip + server.paths[i]
  {
    UrlsOf(server.ip, server.paths)
  }

  function UrlsOf(ip: string, paths: seq<string>): (r: seq<string>)
    ensures |r| == |paths|
    ensures forall i :: 0 <= i < |r| ==> r[i] == "http://" + ip + paths[i]
  {
    if |paths| == 0 then [] else ["http://" + ip + paths[0]] + UrlsOf(ip, paths[1..])
  }

  /**
   * How one attempt's handlers react to an event: `Some(Some(t))` when the
   * request answers (`readyState` 4, status above 0) after `t` ms, `Some(None)`
   * when the attempt gives up (timer, network error, status 0, a throw) and the
   * next URL is tried, `None` when nothing happens.
   */
  function AttemptStep(ev: XhrEvent): Option<Option<nat>> {
    match ev
    case ReadyStateChange(readyState, status, at) =>
      if readyState != 4 then None else if status > 0 then Some(Some(at)) else Some(None)
    case NetworkError(_) => Some(None)
    case XhrTimeout(_) => None
    case OpenSendThrew => Some(None)
    case TimerFired => Some(None)
  }

  /** The reaction of the first handler that acts: the response time, or `None` when the attempt fails. */
  function AttemptOutcome(evs: seq<XhrEvent>): Option<nat> {
    match FirstSettle(AttemptStep, evs)
    case Some(o) => o
    case None => None
  }

  /**
   * What `testServerConnectivity` resolves with when URL `u` delivers the
   * events `net(u)`, starting at path `i`.
   */
  function ConnectivityFrom(server: Server, net: string -> seq<XhrEvent>, i: nat): TestResult
    requires i <= |server.paths|
    decreases |server.paths| - i
  {
    if i == |server.paths| then TestResult(server.name, server.ip, "inaccessible", NoPathMessage, None)
    else
      var url := Urls(server)[i];
      match AttemptOutcome(net(url) + [TimerFired])
      case Some(t) => TestResult(server.name, server.ip, "accessible", "Accessible via " + url, Some(t))
      case None => ConnectivityFrom(server, net, i + 1)
  }

  function Connectivity(server: Server, net: string -> seq<XhrEvent>): TestResult {
    ConnectivityFrom(server, net, 0)
  }

  predicate Answers(net: string -> seq<XhrEvent>, url: string) {
    AttemptOutcome(net(url) + [TimerFired]).Some?
  }

  /** Every outcome names the server and is accessible or inaccessible; a failure carries the fixed message. */
  lemma {:induction false} ConnectivityFromShape(server: Server, net: string -> seq<XhrEvent>, i: nat)
    requires i <= |server.paths|
    ensures var r := ConnectivityFrom(server, net, i);
      && r.server == server.name && r.ip == server.ip
      && (r.status == "accessible" || r.status == "inaccessible")
      && (r.status == "inaccessible" ==> r.message == NoPathMessage && r.responseTime == None)
    decreases |server.paths| - i
  {
    if i < |server.paths| && !Answers(net, Urls(server)[i]) {
      ConnectivityFromShape(server, net, i + 1);
    }
  }

  /** The server is accessible exactly when one of its remaining URLs answers. */
  lemma {:induction false} ConnectivityFromAccessible(server: Server, net: string -> seq<XhrEvent>, i: nat)
    requires i <= |server.paths|
    ensures ConnectivityFrom(server, net, i).status == "accessible" <==>
      exists k :: i <= k < |server.paths| && Answers(net, Urls(server)[k])
    decreases |server.paths| - i
  {
    if i < |server.paths| && !Answers(net, Urls(server)[i]) {
      ConnectivityFromAccessible(server, net, i + 1);
      if exists k :: i <= k < |server.paths| && Answers(net, Urls(server)[k]) {
        var k :| i <= k < |server.paths| && Answers(net, Urls(server)[k]);
        assert k != i;
      }
    }
  }

  /** When accessible, the message and time come from the first URL that answers. */
  lemma {:induction false} ConnectivityFromFirst(server: Server, net: string -> seq<XhrEvent>, i: nat, k: nat)
    requires i <= k < |server.paths| && Answers(net, Urls(server)[k])
    requires forall j :: i <= j < k ==> !Answers(net, Urls(server)[j])
    ensures ConnectivityFrom(server, net, i).message == "Accessible via " + Urls(server)[k]
    ensures ConnectivityFrom(server, net, i).responseTime == AttemptOutcome(net(Urls(server)[k]) + [TimerFired])
    decreases k - i
  {
    if i < k {
      ConnectivityFromFirst(server, net, i + 1, k);
    }
  }

  lemma ConnectivityMeaning(server: Server, net: string -> seq<XhrEvent>)
    ensures var r := Connectivity(server, net);
      && r.server == server.name
      && (r.status == "accessible" <==> exists k :: 0 <= k < |server.paths| && Answers(net, Urls(server)[k]))
      && (r.status != "accessible" ==> r.status == "inaccessible" && r.message == NoPathMessage)
  {
    ConnectivityFromShape(server, net, 0);
    ConnectivityFromAccessible(server, net, 0);
  }

  /** One attempt: handlers guarded by the attempt's own `completed` flag. */
  method RunAttempt(evs: seq<XhrEvent>) returns (outcome: Option<nat>)
    ensures outcome == AttemptOutcome(evs + [TimerFired])
  {
    var all := evs + [TimerFired];
    var completed := false;
    outcome := None;
    var n := 0;
    while n < |all|
      invariant 0 <= n <= |all|
      invariant completed ==> FirstSettle(AttemptStep, all[..n]) == Some(outcome)
      invariant !completed ==> outcome == None && FirstSettle(AttemptStep, all[..n]).None?
    {
      FirstSettleStep(AttemptStep, all, n);
      if !completed {
        var step := AttemptStep(all[n]);
        if step.Some? {
          completed := true;
          outcome := step.value;
        }
      }
      n := n + 1;
    }
    assert all[..n] == all;
  }

  /** `testServerConnectivity`: the URLs are tried in order until one answers. */
  method TestConnectivity(server: Server, net: string -> seq<XhrEvent>) returns (r: TestResult)
    ensures r == Connectivity(server, net)
  {
    var urls := Urls(server);
    var testIndex := 0;
    while testIndex < |urls|
      invariant 0 <= testIndex <= |urls|
      invariant Connectivity(server, net) == ConnectivityFrom(server, net, testIndex)
    {
      var url := urls[testIndex];
      var outcome := RunAttempt(net(url));
      if outcome.Some? {
        return TestResult(server.name, server.ip, "accessible", "Accessible via " + url, outcome);
      }
      testIndex := testIndex + 1;
    }
    r := TestResult(server.name, server.ip, "inaccessible", NoPathMessage, None);
  }

  /** `bdixServers.filter(server => selectedServers.includes(server.name))`. */
  function ToTest(servers: seq<Server>, selected: seq<string>): (r: seq<Server>)
    ensures forall s :: s in r <==> s in servers && s.name in selected
    ensures |r| <= |servers|
    ensures Seqs.Subsequence(r, servers)
  {
    if |servers| == 0 then []
    else
      var rest := ToTest(servers[1..], selected);
      if servers[0].name in selected then
        assert ([servers[0]] + rest)[1..] == rest;
        [servers[0]] + rest
      else
        rest
  }

  /** The selection is `servers.filter(s => selected.includes(s.name))`: the selected servers, each once, in catalogue order. */
  lemma {:induction false} ToTestIsFilter(servers: seq<Server>, selected: seq<string>)
    ensures ToTest(servers, selected) == Seqs.Filter(servers, (s: Server) => s.name in selected)
  {
    if |servers| > 0 {
      ToTestIsFilter(servers[1..], selected);
    }
  }

  datatype Page = Page(results: seq<TestResult>, isTesting: bool, selected: seq<string>)

  /**
   * `runTests`: with nothing selected only the prompt is shown; otherwise the
   * selected catalogue servers are tested one after another, in catalogue order.
   */
  method RunTests(page: Page, net: string -> seq<XhrEvent>) returns (next: Page, alert: Option<string>)
    ensures page.selected == [] ==> next == page && alert == Some(SelectPrompt)
    ensures page.selected != [] ==>
      && alert == None && !next.isTesting && next.selected == page.selected
      && |next.results| == |ToTest(Catalogue, page.selected)|
      && forall i :: 0 <= i < |next.results| ==> next.results[i] == Connectivity(ToTest(Catalogue, page.selected)[i], net)
  {
    if |page.selected| == 0 {
      return page, Some(SelectPrompt);
    }
    var results := TestAll(ToTest(Catalogue, page.selected), net);
    next := Page(results, false, page.selected);
    alert := None;
  }

  /** The `for ... of` loop of `runTests`: one awaited test per server, results pushed in order. */
  method TestAll(serversToTest: seq<Server>, net: string -> seq<XhrEvent>) returns (results: seq<TestResult>)
    ensures |results| == |serversToTest|
    ensures forall j :: 0 <= j < |results| ==> results[j] == Connectivity(serversToTest[j], net)
  {
    results := [];
    for i := 0 to |serversToTest|
      invariant |results| == i
      invariant forall j :: 0 <= j < i ==> results[j] == Connectivity(serversToTest[j], net)
    {
      var result := TestConnectivity(serversToTest[i], net);
      results := results + [result];
    }
  }

  /** After a run, every selected catalogue server has a result, and no other. */
  lemma RunCoversSelection(selected: seq<string>, net: string -> seq<XhrEvent>, results: seq<TestResult>)
    requires |results| == |ToTest(Catalogue, selected)|
    requires forall i :: 0 <= i < |results| ==> results[i] == Connectivity(ToTest(Catalogue, selected)[i], net)
    ensures forall s :: s in Catalogue && s.name in selected ==> exists r :: r in results && r.server == s.name && r.ip == s.ip
    ensures forall r :: r in results ==> exists s :: s in Catalogue && s.name in selected && r.server == s.name
  {
    var tt := ToTest(Catalogue, selected);
    forall s | s in Catalogue && s.name in selected
      ensures exists r :: r in results && r.server == s.name && r.ip == s.ip
    {
      var i :| 0 <= i < |tt| && tt[i] == s;
      ConnectivityFromShape(s, net, 0);
      assert results[i] in results;
    }
    forall r | r in results
      ensures exists s :: s in Catalogue && s.name in selected && r.server == s.name
    {
      var i :| 0 <= i < |results| && results[i] == r;
      ConnectivityMeaning(tt[i], net);
      assert tt[i] in tt;
    }
  }

  /** `toggleServerSelection`, `selectAllServers`, `clearSelection`. */
  function ToggleServer(page: Page, name: string): (next: Page)
    ensures name in next.selected <==> name !in page.selected
    ensures next.results == page.results && next.isTesting == page.isTesting
  {
    page.(selected := Selection.Toggle(page.selected, name))
  }

  function SelectAllServers(page: Page): (next: Page)
    ensures forall i :: 0 <= i < |Catalogue| ==> Catalogue[i].name in next.selected
    ensures ToTest(Catalogue, next.selected) == Catalogue
  {
    var names := Names(Catalogue);
    ToTestAll(Catalogue, names);
    page.(selected := Selection.SelectAll(names))
  }

  /** `bdixServers.map(server => server.name)`. */
  function Names(servers: seq<Server>): (r: seq<string>)
    ensures |r| == |servers|
    ensures forall i :: 0 <= i < |servers| ==> r[i] == servers[i].name
  {
    if |servers| == 0 then [] else [servers[0].name] + Names(servers[1..])
  }

  lemma {:induction false} ToTestAll(servers: seq<Server>, names: seq<string>)
    requires forall i :: 0 <= i < |servers| ==> servers[i].name in names
    ensures ToTest(servers, names) == servers
  {
    if |servers| > 0 {
      assert servers[0].name in names;
      ToTestAll(servers[1..], names);
    }
  }

  function ClearSelection(page: Page): (next: Page)
    ensures ToTest(Catalogue, next.selected) == []
  {
    page.(selected := Selection.Clear())
  }
}
