/**
 * The analytics dashboard: counts over the current status map, the
 * rounded online percentage, the last five history entries and the uptime
 * trend across them.
 */
module Analytics {
  import opened Wrappers
  import opened Percent
  import Seqs

  /** A history entry; only its online count is read here, and a missing or zero count reads as 0. */
  datatype HistoryEntry = HistoryEntry(onlineCount: Option<int>)

  function OnlineOf(entry: HistoryEntry): int {
    entry.onlineCount.GetOr(0)
  }

  function IsStatus(status: string): string -> bool {
    (s: string) => s == status
  }

  /**
   * The dashboard's statistics over `Object.values(serverStatus)`, given
   * here as the sequence of those values.
   */
  datatype Stats = Stats(onlineServers: nat, offlineServers: nat, totalServers: nat, onlinePercentage: nat)

  function StatsOf(values: seq<string>): (r: Stats)
    ensures r.totalServers == |values|
    ensures r.onlineServers == Seqs.Count(values, IsStatus("Online"))
    ensures r.offlineServers == Seqs.Count(values, IsStatus("Offline"))
    ensures r.onlineServers + r.offlineServers <= r.totalServers
    ensures r.onlinePercentage <= 100
    ensures r.totalServers == 0 ==> r.onlinePercentage == 0
    ensures r.totalServers > 0 ==> 2 * r.totalServers * r.onlinePercentage <= 200 * r.onlineServers + r.totalServers < 2 * r.totalServers * (r.onlinePercentage + 1)
  {
    var online := Seqs.Count(values, IsStatus("Online"));
    var offline := Seqs.Count(values, IsStatus("Offline"));
    Seqs.CountDisjoint(values, IsStatus("Online"), IsStatus("Offline"));
    var total := |values|;
    var pct := if total > 0 then (PercentFacts(online, total); RoundPercent(online, total)) else 0;
    Stats(online, offline, total, pct)
  }

  lemma PercentFacts(online: nat, total: nat)
    requires 0 < total && online <= total
    ensures RoundPercent(online, total) <= 100
    ensures 2 * total * RoundPercent(online, total) <= 200 * online + total < 2 * total * (RoundPercent(online, total) + 1)
  {
    RoundPercentNearest(online, total);
    RoundPercentAtMost100(online, total);
  }

  /** `testHistory.slice(-5)`: the last five entries, or all of them when there are fewer. */
  function RecentTests(history: seq<HistoryEntry>): (r: seq<HistoryEntry>)
    ensures |r| == if |history| < 5 then |history| else 5
    ensures r == history[|history| - |r|..]
  {
    if |history| <= 5 then history else history[|history| - 5..]
  }

  /** `uptimeTrend`: the last minus the first online count of the recent tests, 0 with fewer than two. */
  function UptimeTrend(recent: seq<HistoryEntry>): (t: int)
    ensures |recent| <= 1 ==> t == 0
    ensures |recent| > 1 ==> t == OnlineOf(recent[|recent| - 1]) - OnlineOf(recent[0])
  {
    if |recent| > 1 then OnlineOf(recent[|recent| - 1]) - OnlineOf(recent[0]) else 0
  }

  /** The trend is the sum of the step-by-step changes across the recent tests. */
  function Steps(recent: seq<HistoryEntry>): int
    decreases |recent|
  {
    if |recent| <= 1 then 0
    else OnlineOf(recent[1]) - OnlineOf(recent[0]) + Steps(recent[1..])
  }

  lemma {:induction false} TrendTelescopes(recent: seq<HistoryEntry>)
    ensures UptimeTrend(recent) == Steps(recent)
  {
    if |recent| > 2 {
      TrendTelescopes(recent[1..]);
      assert recent[1..][|recent[1..]| - 1] == recent[|recent| - 1];
    }
  }

  /** When the online count never drops across the history, the trend shown is never negative. */
  lemma TrendOfRisingHistory(history: seq<HistoryEntry>)
    requires forall i :: 0 <= i < |history| - 1 ==> OnlineOf(history[i]) <= OnlineOf(history[i + 1])
    ensures UptimeTrend(RecentTests(history)) >= 0
  {
    var recent := RecentTests(history);
    var k := |history| - |recent|;
    forall i | 0 <= i < |recent| - 1 ensures OnlineOf(recent[i]) <= OnlineOf(recent[i + 1]) {
      assert recent[i] == history[k + i] && recent[i + 1] == history[k + i + 1];
    }
    StepsNonNegative(recent);
    TrendTelescopes(recent);
  }

  lemma {:induction false} StepsNonNegative(recent: seq<HistoryEntry>)
    requires forall i :: 0 <= i < |recent| - 1 ==> OnlineOf(recent[i]) <= OnlineOf(recent[i + 1])
    ensures Steps(recent) >= 0
    decreases |recent|
  {
    if |recent| > 1 {
      forall i | 0 <= i < |recent[1..]| - 1 ensures OnlineOf(recent[1..][i]) <= OnlineOf(recent[1..][i + 1]) {
        assert recent[1..][i] == recent[i + 1] && recent[1..][i + 1] == recent[i + 2];
      }
      StepsNonNegative(recent[1..]);
    }
  }
}
