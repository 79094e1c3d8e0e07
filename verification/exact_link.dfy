/**
 * The exact-link page: a settle-once XMLHttpRequest probe per server,
 * run one server at a time over a fixed list.
 */
module ExactLink {
  import opened Wrappers
  import opened Browser
  import Seqs

  /** What the probe resolves with: `{ server, status, time }`. */
  datatype ProbeResult = ProbeResult(server: string, status: string, time: nat)

  const TimeoutMs: nat := 3000

  const Servers: seq<string> := [
    "172.16.50.4", "discoveryftp.net", "172.27.27.84", "10.16.100.244", "103.58.73.9",
    "www.naturalbd.com", "dhakamovie.com", "103.91.144.230", "ctgmovies.com", "ftpbd.net"
  ]

  /** What a handler resolves with when it is the first to run; `None` when it does nothing. */
  function Decide(server: string, ev: XhrEvent): Option<ProbeResult> {
    match ev
    case TimerFired => Some(ProbeResult(server, "inaccessible", TimeoutMs))
    case ReadyStateChange(readyState, status, at) =>
      if readyState != 4 then None
      else if status > 0 then Some(ProbeResult(server, "accessible", at))
      else Some(ProbeResult(server, "inaccessible", at))
    case NetworkError(at) => Some(ProbeResult(server, "inaccessible", at))
    case XhrTimeout(_) => None
    case OpenSendThrew => Some(ProbeResult(server, "error", 0))
  }

  /** `Decide` for one server, as the reaction `FirstSettle` consumes. */
  function Reaction(server: string): XhrEvent -> Option<ProbeResult> {
    ev => Decide(server, ev)
  }

  /**
   * What `testServer(server)` resolves with when the browser delivers `evs`;
   * the 3000 ms timer always fires eventually, so the probe always resolves.
   */
  function Settle(server: string, evs: seq<XhrEvent>): ProbeResult {
    FirstSettleLast(Reaction(server), evs, TimerFired);
    FirstSettle(Reaction(server), evs + [TimerFired]).value
  }

  /** Events after the deciding one change nothing: the probe resolves once. */
  lemma SettleIgnoresLaterEvents(server: string, evs: seq<XhrEvent>, later: seq<XhrEvent>)
    requires FirstSettle(Reaction(server), evs).Some?
    ensures Settle(server, evs + later) == FirstSettle(Reaction(server), evs).value
  {
    FirstSettleAppend(Reaction(server), evs, later + [TimerFired]);
    assert evs + later + [TimerFired] == evs + (later + [TimerFired]);
  }

  /** The possible verdicts, and which event gives each. */
  lemma SettleCases(server: string, evs: seq<XhrEvent>)
    ensures var r := Settle(server, evs);
      && r.server == server
      && (r.status == "accessible" || r.status == "inaccessible" || r.status == "error")
      && (r.status == "error" ==> r.time == 0)
      && (evs == [] ==> r == ProbeResult(server, "inaccessible", TimeoutMs))
      && (|evs| > 0 && evs[0].OpenSendThrew? ==> r == ProbeResult(server, "error", 0))
      && (|evs| > 0 && evs[0].ReadyStateChange? && evs[0].readyState == 4 ==>
            r.time == evs[0].at && (r.status == "accessible" <==> evs[0].status > 0))
  {
    var all := evs + [TimerFired];
    FirstSettleLast(Reaction(server), evs, TimerFired);
    var i :| 0 <= i < |all| && Reaction(server)(all[i]) == FirstSettle(Reaction(server), all)
      && forall j :: 0 <= j < i ==> Reaction(server)(all[j]).None?;
    if |evs| > 0 {
      assert all[0] == evs[0];
      if Decide(server, evs[0]).Some? {
        assert Reaction(server)(all[0]).Some?;
        assert i == 0;
      }
    }
  }

  /** The probe's handlers over the shared `completed` flag. */
  class XhrProbe {
    const server: string
    var completed: bool
    var resolved: Option<ProbeResult>

    ghost predicate Valid()
      reads this
    {
      completed <==> resolved.Some?
    }

    constructor (server: string)
      ensures Valid() && this.server == server && !completed
    {
      this.server := server;
      completed := false;
      resolved := None;
    }

    /** Runs the handler for `ev`: only the first acting handler resolves. */
    method Handle(ev: XhrEvent)
      requires Valid()
      modifies this
      ensures Valid()
      ensures old(completed) ==> completed && resolved == old(resolved)
      ensures !old(completed) ==> resolved == Decide(server, ev)
    {
      match ev {
        case TimerFired =>
          if !completed {
            completed := true;
            resolved := Some(ProbeResult(server, "inaccessible", TimeoutMs));
          }
        case ReadyStateChange(readyState, status, at) =>
          if readyState == 4 && !completed {
            completed := true;
            if status > 0 {
              resolved := Some(ProbeResult(server, "accessible", at));
            } else {
              resolved := Some(ProbeResult(server, "inaccessible", at));
            }
          }
        case NetworkError(at) =>
          if !completed {
            completed := true;
            resolved := Some(ProbeResult(server, "inaccessible", at));
          }
        case XhrTimeout(_) =>
        case OpenSendThrew =>
          if !completed {
            completed := true;
            resolved := Some(ProbeResult(server, "error", 0));
          }
      }
    }
  }

  /** `testServer(server)`: the browser runs the handlers for `evs`, then the timer. */
  method TestServer(server: string, evs: seq<XhrEvent>) returns (r: ProbeResult)
    ensures r == Settle(server, evs)
  {
    var probe := new XhrProbe(server);
    var all := evs + [TimerFired];
    var n := 0;
    while n < |all|
      invariant 0 <= n <= |all| && probe.Valid() && probe.server == server
      invariant probe.completed ==> FirstSettle(Reaction(server), all[..n]) == probe.resolved
      invariant !probe.completed ==> FirstSettle(Reaction(server), all[..n]).None?
    {
      FirstSettleStep(Reaction(server), all, n);
      probe.Handle(all[n]);
      n := n + 1;
    }
    assert all[..n] == all;
    FirstSettleLast(Reaction(server), evs, TimerFired);
    r := probe.resolved.value;
  }

  /** `runAllTests`: the servers are probed one at a time, one result each, in list order. */
  method RunAllTests(servers: seq<string>, events: seq<seq<XhrEvent>>) returns (results: seq<ProbeResult>)
    requires |events| == |servers|
    ensures |results| == |servers|
    ensures forall i :: 0 <= i < |servers| ==> results[i] == Settle(servers[i], events[i])
  {
    results := [];
    for i := 0 to |servers|
      invariant |results| == i
      invariant forall j :: 0 <= j < i ==> results[j] == Settle(servers[j], events[j])
    {
      var result := TestServer(servers[i], events[i]);
      results := results + [result];
    }
  }

  /** `getStatusColor`. */
  function StatusColor(status: string): (c: string)
    ensures c == "#6c757d" <==> status != "accessible" && status != "inaccessible"
  {
    match status
    case "accessible" => "#28a745"
    case "inaccessible" => "#dc3545"
    case _ => "#6c757d"
  }

  /** `getStatusText`: every other status, `'error'` included, reads as not tested. */
  function StatusText(status: string): (t: string)
    ensures t == "Not Tested" <==> status != "accessible" && status != "inaccessible"
    ensures status == "accessible" ==> t == "Accessible"
    ensures status == "inaccessible" ==> t == "Not Accessible"
  {
    match status
    case "accessible" => "Accessible"
    case "inaccessible" => "Not Accessible"
    case _ => "Not Tested"
  }

  predicate HasResult(results: seq<ProbeResult>, server: string) {
    exists r :: r in results && r.server == server
  }

  /** The "untested" cards: the servers, in order, that no result names. */
  function Untested(servers: seq<string>, results: seq<ProbeResult>): (u: seq<string>)
    ensures forall s :: s in u <==> s in servers && !HasResult(results, s)
    ensures |u| <= |servers|
    ensures Seqs.Subsequence(u, servers)
  {
    if |servers| == 0 then []
    else
      var rest := Untested(servers[1..], results);
      if HasResult(results, servers[0]) then rest
      else
        assert ([servers[0]] + rest)[1..] == rest;
        [servers[0]] + rest
  }

  /** `servers.filter(s => !testResults.some(r => r.server === s))`: one card per untested occurrence, in catalogue order. */
  lemma {:induction false} UntestedIsFilter(servers: seq<string>, results: seq<ProbeResult>)
    ensures Untested(servers, results) == Seqs.Filter(servers, (s: string) => !HasResult(results, s))
  {
    if |servers| > 0 {
      UntestedIsFilter(servers[1..], results);
    }
  }

  /** Once `runAllTests` has finished, no server is left untested. */
  lemma AllTestedAfterRun(servers: seq<string>, events: seq<seq<XhrEvent>>, results: seq<ProbeResult>)
    requires |events| == |servers| && |results| == |servers|
    requires forall i :: 0 <= i < |servers| ==> results[i] == Settle(servers[i], events[i])
    ensures Untested(servers, results) == []
  {
    forall s | s in servers ensures HasResult(results, s) {
      var i :| 0 <= i < |servers| && servers[i] == s;
      SettleCases(servers[i], events[i]);
      assert results[i] in results;
    }
    UntestedEmpty(servers, results);
  }

  lemma {:induction false} UntestedEmpty(servers: seq<string>, results: seq<ProbeResult>)
    requires forall s :: s in servers ==> HasResult(results, s)
    ensures Untested(servers, results) == []
  {
    if |servers| > 0 {
      assert servers[0] in servers;
      UntestedEmpty(servers[1..], results);
    }
  }
}
