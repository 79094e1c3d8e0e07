/**
 * The continuous-monitoring panel: a round probes the first URL of each of
 * the first five servers; rounds run when monitoring starts and on every
 * interval tick, and the panel keeps the ten most recent rounds.
 */
module Monitoring {
  import opened Wrappers
  import opened Browser
  import Seqs

  datatype Server = Server(name: string, urls: seq<string>)

  /** One entry of a round; the ISO timestamp each entry carries is not modelled. */
  datatype Check = Check(serverName: string, url: string, status: string, responseTime: nat)

  const TimeoutMs: nat := 3000
  const MaxServers: nat := 5
  const HistoryLength: nat := 10

  /** `checkServer`: a load or an error is online after the elapsed time; the timer is offline after 3000 ms. */
  function CheckServer(evs: seq<ImageEvent>): (r: (string, nat))
    ensures r.0 == "Online" <==> evs != [] && !evs[0].ImageTimer?
    ensures r.0 == "Online" ==> r.1 == evs[0].at
    ensures r.0 != "Online" ==> r == ("Offline", TimeoutMs)
  {
    match ImageAnswer(evs)
    case Some(at) => ("Online", at)
    case None => ("Offline", TimeoutMs)
  }

  function Min(a: nat, b: nat): nat {
    if a <= b then a else b
  }

  /** `server.urls.slice(0, 1)` is non-empty: the server is probed. */
  function HasUrl(): Server -> bool {
    (s: Server) => s.urls != []
  }

  /** The entry pushed for a server: its name, its first URL, and that URL's probe result. */
  function CheckOf(s: Server, net: string -> seq<ImageEvent>): (c: Check)
    requires s.urls != []
    ensures c.serverName == s.name && c.url == s.urls[0]
    ensures (c.status, c.responseTime) == CheckServer(net(s.urls[0]))
  {
    var (status, time) := CheckServer(net(s.urls[0]));
    Check(s.name, s.urls[0], status, time)
  }

  /**
   * The checks of one round, in order; `net(url)` is what the favicon probe of `url` observes:
   * one per server with a URL among the first five, in list order.
   */
  function RoundSpec(servers: seq<Server>, net: string -> seq<ImageEvent>): (r: seq<Check>)
    ensures |r| <= MaxServers
    ensures var probed := Seqs.Filter(servers[..Min(MaxServers, |servers|)], HasUrl());
      |r| == |probed| && forall i :: 0 <= i < |r| ==> probed[i].urls != [] && r[i] == CheckOf(probed[i], net)
  {
    RoundFrom(servers[..Min(MaxServers, |servers|)], net)
  }

  /** One check per server that has a URL, on its first URL, in server order. */
  function RoundFrom(servers: seq<Server>, net: string -> seq<ImageEvent>): (r: seq<Check>)
    ensures |r| <= |servers|
    ensures var probed := Seqs.Filter(servers, HasUrl());
      |r| == |probed| && forall i :: 0 <= i < |r| ==> probed[i].urls != [] && r[i] == CheckOf(probed[i], net)
  {
    if |servers| == 0 then []
    else
      var init := servers[..|servers| - 1];
      var rest := RoundFrom(init, net);
      var s := servers[|servers| - 1];
      assert servers == init + [s];
      Seqs.FilterSnoc(init, s, HasUrl());
      if s.urls == [] then rest
      else rest + [CheckOf(s, net)]
  }

  /** Probing one more server of the list extends the round by its check, if it has a URL. */
  lemma RoundFromStep(servers: seq<Server>, i: nat, net: string -> seq<ImageEvent>)
    requires i < |servers|
    ensures RoundFrom(servers[..i + 1], net) ==
      RoundFrom(servers[..i], net) + (if servers[i].urls == [] then [] else [CheckOf(servers[i], net)])
  {
    assert servers[..i + 1][..i] == servers[..i];
  }

  /** Every check of a round names one of the probed servers and that server's first URL, with that URL's probe result. */
  lemma {:induction false} RoundChecksProbedServers(servers: seq<Server>, net: string -> seq<ImageEvent>)
    ensures forall c :: c in RoundFrom(servers, net) ==>
      exists s :: s in servers && s.urls != [] && c.serverName == s.name && c.url == s.urls[0]
        && (c.status, c.responseTime) == CheckServer(net(s.urls[0]))
  {
    if |servers| > 0 {
      var init := servers[..|servers| - 1];
      RoundChecksProbedServers(init, net);
      assert forall x :: x in init ==> x in servers;
    }
  }

  /** Servers without a URL are skipped; when every server has one, the round has one check per server. */
  lemma RoundOnePerServer(servers: seq<Server>, net: string -> seq<ImageEvent>)
    ensures (forall i :: 0 <= i < |servers| ==> servers[i].urls != []) ==> |RoundFrom(servers, net)| == |servers|
    ensures (exists i :: 0 <= i < |servers| && servers[i].urls == []) ==> |RoundFrom(servers, net)| < |servers|
  {
    Seqs.FilterAll(servers, HasUrl());
  }

  /**
   * `runMonitoringTests`: nothing happens for an empty server list; otherwise
   * the first URL of each of the first five servers is probed, in order.
   */
  method RunRound(servers: seq<Server>, net: string -> seq<ImageEvent>) returns (round: Option<seq<Check>>)
    ensures servers == [] <==> round.None?
    ensures round.Some? ==> round.value == RoundSpec(servers, net)
  {
    if |servers| == 0 {
      return None;
    }
    var picked := servers[..Min(MaxServers, |servers|)];
    var testResults: seq<Check> := [];
    for i := 0 to |picked|
      invariant testResults == RoundFrom(picked[..i], net)
    {
      RoundFromStep(picked, i, net);
      var server := picked[i];
      if server.urls != [] {
        var url := server.urls[0];
        var (status, time) := CheckServer(net(url));
        assert Check(server.name, url, status, time) == CheckOf(server, net);
        testResults := testResults + [Check(server.name, url, status, time)];
      }
    }
    assert picked[..|picked|] == picked;
    round := Some(testResults);
  }

  /** `[testResults, ...prev.slice(0, 9)]`. */
  function PushRound(history: seq<seq<Check>>, round: seq<Check>): (r: seq<seq<Check>>)
    ensures |r| == Min(HistoryLength, |history| + 1)
    ensures r[0] == round && r[1..] == history[..|r| - 1]
  {
    [round] + history[..Min(HistoryLength - 1, |history|)]
  }

  /** The panel state. `intervalId` is the value `setInterval` returned; 0 would read as no interval. */
  class Panel {
    var isMonitoring: bool
    var monitoringInterval: nat
    var monitoringResults: seq<seq<Check>>
    var intervalId: Option<nat>

    ghost predicate Valid()
      reads this
    {
      |monitoringResults| <= HistoryLength
    }

    constructor ()
      ensures Valid() && !isMonitoring && monitoringInterval == 30 && monitoringResults == [] && intervalId == None
    {
      isMonitoring := false;
      monitoringInterval := 30;
      monitoringResults := [];
      intervalId := None;
    }

    /** One run of `runMonitoringTests`, at start or on an interval tick. */
    method Tick(servers: seq<Server>, net: string -> seq<ImageEvent>)
      requires Valid()
      modifies this
      ensures Valid()
      ensures servers == [] ==> monitoringResults == old(monitoringResults)
      ensures servers != [] ==> monitoringResults == PushRound(old(monitoringResults), RoundSpec(servers, net))
      ensures isMonitoring == old(isMonitoring) && intervalId == old(intervalId) && monitoringInterval == old(monitoringInterval)
    {
      var round := RunRound(servers, net);
      if round.Some? {
        monitoringResults := PushRound(monitoringResults, round.value);
      }
    }

    /**
     * `toggleMonitoring`: stopping clears a set interval and the flag; starting
     * sets the flag, runs a round at once and keeps the new interval's id.
     */
    method ToggleMonitoring(servers: seq<Server>, net: string -> seq<ImageEvent>, newId: nat)
      requires Valid()
      modifies this
      ensures Valid()
      ensures isMonitoring == !old(isMonitoring)
      ensures old(isMonitoring) ==> monitoringResults == old(monitoringResults)
      ensures old(isMonitoring) && old(intervalId).Some? && old(intervalId).value != 0 ==> intervalId == None
      ensures old(isMonitoring) && (old(intervalId).None? || old(intervalId).value == 0) ==> intervalId == old(intervalId)
      ensures !old(isMonitoring) ==> intervalId == Some(newId)
      ensures !old(isMonitoring) && servers != [] ==>
        monitoringResults == PushRound(old(monitoringResults), RoundSpec(servers, net))
      ensures monitoringInterval == old(monitoringInterval)
    {
      if isMonitoring {
        if intervalId.Some? && intervalId.value != 0 {
          intervalId := None;
        }
        isMonitoring := false;
      } else {
        isMonitoring := true;
        Tick(servers, net);
        intervalId := Some(newId);
      }
    }

    /** The interval slider, which is disabled while monitoring and ranges over 10 to 300 seconds. */
    method SetMonitoringInterval(seconds: nat)
      requires !isMonitoring && 10 <= seconds <= 300
      modifies this
      ensures monitoringInterval == seconds && monitoringResults == old(monitoringResults)
      ensures isMonitoring == old(isMonitoring) && intervalId == old(intervalId)
    {
      monitoringInterval := seconds;
    }

    /** The delay `setInterval` receives. */
    function IntervalMs(): nat
      reads this
    {
      monitoringInterval * 1000
    }
  }

  /** However many rounds have run, at most ten are kept and the newest comes first. */
  lemma {:induction false} HistoryBounded(history: seq<seq<Check>>, rounds: seq<seq<Check>>)
    requires |history| <= HistoryLength
    ensures |PushAll(history, rounds)| <= HistoryLength
    ensures rounds != [] ==> PushAll(history, rounds)[0] == rounds[|rounds| - 1]
  {
    if |rounds| > 0 {
      HistoryBounded(history, rounds[..|rounds| - 1]);
    }
  }

  /** The history after the rounds in `rounds` ran, oldest first. */
  function PushAll(history: seq<seq<Check>>, rounds: seq<seq<Check>>): seq<seq<Check>> {
    if |rounds| == 0 then history else PushRound(PushAll(history, rounds[..|rounds| - 1]), rounds[|rounds| - 1])
  }
}
