/**
 * The server-comparison panel: the user selects servers, and each selected
 * server that the catalogue knows becomes a row counting its online and
 * offline URLs and its success rate; the rows are shown sorted.
 */
module Comparison {
  import opened Wrappers
  import opened Text
  import opened Sorting
  import opened Percent
  import Seqs
  import Selection
  import ResultsView

  datatype Server = Server(name: string, category: string, urls: seq<string>)

  datatype Row = Row(name: string, category: string, totalUrls: nat, onlineUrls: nat, offlineUrls: nat, successRate: nat)

  datatype Panel = Panel(comparisonMode: bool, selected: seq<string>, sortBy: string)

  /** `toggleServerSelection`. */
  function ToggleServerSelection(panel: Panel, name: string): (next: Panel)
    ensures name in next.selected <==> name !in panel.selected
    ensures forall x :: x != name ==> (x in next.selected <==> x in panel.selected)
    ensures name !in panel.selected ==> next.selected == panel.selected + [name]
    ensures next.comparisonMode == panel.comparisonMode && next.sortBy == panel.sortBy
  {
    panel.(selected := Selection.Toggle(panel.selected, name))
  }

  function Names(servers: seq<Server>): (r: seq<string>)
    ensures |r| == |servers| && forall i :: 0 <= i < |servers| ==> r[i] == servers[i].name
  {
    seq(|servers|, i requires 0 <= i < |servers| => servers[i].name)
  }

  /** `selectAllServers`: every catalogue name in catalogue order. */
  function SelectAllServers(panel: Panel, servers: seq<Server>): (next: Panel)
    ensures |next.selected| == |servers|
    ensures forall i :: 0 <= i < |servers| ==> next.selected[i] == servers[i].name
  {
    panel.(selected := Selection.SelectAll(Names(servers)))
  }

  /** `clearSelection`. */
  function ClearSelection(panel: Panel): (next: Panel)
    ensures next.selected == []
  {
    panel.(selected := Selection.Clear())
  }

  /** `allServers.find(s => s.name === serverName)`: the first server with that name. */
  function Find(servers: seq<Server>, name: string): (r: Option<Server>)
    ensures r.None? <==> forall i :: 0 <= i < |servers| ==> servers[i].name != name
    ensures r.Some? ==> (r.value.name == name &&
      exists i :: 0 <= i < |servers| && servers[i] == r.value && forall j :: 0 <= j < i ==> servers[j].name != name)
  {
    if |servers| == 0 then None
    else if servers[0].name == name then Some(servers[0])
    else
      var r := Find(servers[1..], name);
      assert forall i :: 0 <= i < |servers| - 1 ==> servers[1..][i] == servers[i + 1];
      r
  }

  function Indices(n: nat): (r: seq<nat>)
    ensures |r| == n && forall i :: 0 <= i < n ==> r[i] == i
  {
    seq(n, i requires 0 <= i < n => i)
  }

  /** Whether the URL at `urlIndex` of server `name` is recorded with `status`. */
  function HasStatus(serverStatus: map<string, string>, name: string, status: string): nat -> bool {
    (urlIndex: nat) =>
      ResultsView.StatusKey(name, urlIndex) in serverStatus && serverStatus[ResultsView.StatusKey(name, urlIndex)] == status
  }

  /** How many of a server's URLs are recorded with `status`. */
  function UrlsWithStatus(server: Server, serverStatus: map<string, string>, status: string): (n: nat)
    ensures n <= |server.urls|
  {
    Seqs.Count(Indices(|server.urls|), HasStatus(serverStatus, server.name, status))
  }

  /** A URL is never counted both online and offline. */
  lemma OnlinePlusOffline(server: Server, serverStatus: map<string, string>)
    ensures UrlsWithStatus(server, serverStatus, "Online") + UrlsWithStatus(server, serverStatus, "Offline") <= |server.urls|
  {
    Seqs.CountDisjoint(Indices(|server.urls|), HasStatus(serverStatus, server.name, "Online"),
      HasStatus(serverStatus, server.name, "Offline"));
  }

  /** One comparison row: the counts and the rounded percentage of online URLs, 0 for a server without URLs. */
  function RowOf(server: Server, serverStatus: map<string, string>): (row: Row)
    ensures row.name == server.name && row.category == server.category && row.totalUrls == |server.urls|
    ensures row.onlineUrls + row.offlineUrls <= row.totalUrls
    ensures row.successRate <= 100
    ensures row.totalUrls == 0 ==> row.successRate == 0
    ensures row.totalUrls > 0 ==> 2 * row.totalUrls * row.successRate <= 200 * row.onlineUrls + row.totalUrls < 2 * row.totalUrls * (row.successRate + 1)
    ensures 0 < row.onlineUrls == row.totalUrls ==> row.successRate == 100
  {
    var online := UrlsWithStatus(server, serverStatus, "Online");
    var offline := UrlsWithStatus(server, serverStatus, "Offline");
    var total := |server.urls|;
    OnlinePlusOffline(server, serverStatus);
    var rate := if total > 0 then (RateFacts(online, total); RoundPercent(online, total)) else 0;
    Row(server.name, server.category, total, online, offline, rate)
  }

  lemma RateFacts(online: nat, total: nat)
    requires 0 < total && online <= total
    ensures RoundPercent(online, total) <= 100
    ensures 2 * total * RoundPercent(online, total) <= 200 * online + total < 2 * total * (RoundPercent(online, total) + 1)
    ensures online == total ==> RoundPercent(online, total) == 100
  {
    RoundPercentNearest(online, total);
    RoundPercentAtMost100(online, total);
    if online == total {
      RoundPercentWhole(total);
    }
  }

  /** `comparisonData`: one row per selected name the catalogue knows, in selection order. */
  function ComparisonData(selected: seq<string>, servers: seq<Server>, serverStatus: map<string, string>): (rows: seq<Row>)
    ensures |rows| <= |selected|
    ensures forall row :: row in rows ==> row.name in selected && Find(servers, row.name).Some?
    ensures forall row :: row in rows ==> row == RowOf(Find(servers, row.name).value, serverStatus)
  {
    if |selected| == 0 then []
    else
      var rest := ComparisonData(selected[1..], servers, serverStatus);
      assert forall x :: x in selected[1..] ==> x in selected;
      match Find(servers, selected[0])
      case None => rest
      case Some(server) => [RowOf(server, serverStatus)] + rest
  }

  /** A selected name has a row exactly when the catalogue has a server of that name. */
  lemma {:induction false} RowForKnownNames(selected: seq<string>, servers: seq<Server>, serverStatus: map<string, string>, name: string)
    requires name in selected
    ensures (exists row :: row in ComparisonData(selected, servers, serverStatus) && row.name == name)
      <==> Find(servers, name).Some?
  {
    var rows := ComparisonData(selected, servers, serverStatus);
    if selected[0] != name {
      RowForKnownNames(selected[1..], servers, serverStatus, name);
      var rest := ComparisonData(selected[1..], servers, serverStatus);
      assert forall row :: row in rest ==> row in rows;
    } else if Find(servers, name).Some? {
      assert rows[0].name == name;
    }
  }

  /** "The catalogue has a server of this name", as a `filter` predicate on names. */
  function Known(servers: seq<Server>): string -> bool {
    name => Find(servers, name).Some?
  }

  /** The rows of names the catalogue knows, one per name, in the given order. */
  function RowsFor(names: seq<string>, servers: seq<Server>, serverStatus: map<string, string>): (rows: seq<Row>)
    requires forall name :: name in names ==> Find(servers, name).Some?
    ensures |rows| == |names|
  {
    if |names| == 0 then []
    else
      assert forall name :: name in names[1..] ==> name in names;
      [RowOf(Find(servers, names[0]).value, serverStatus)] + RowsFor(names[1..], servers, serverStatus)
  }

  /** The rows are those of the selected names the catalogue knows, in selection order. */
  lemma {:induction false} ComparisonDataInOrder(selected: seq<string>, servers: seq<Server>, serverStatus: map<string, string>)
    ensures ComparisonData(selected, servers, serverStatus)
      == RowsFor(Seqs.Filter(selected, Known(servers)), servers, serverStatus)
  {
    if |selected| > 0 {
      ComparisonDataInOrder(selected[1..], servers, serverStatus);
      var known := Seqs.Filter(selected, Known(servers));
      var knownRest := Seqs.Filter(selected[1..], Known(servers));
      if Find(servers, selected[0]).Some? {
        assert known == [selected[0]] + knownRest;
        assert known[1..] == knownRest;
      } else {
        assert known == knownRest;
      }
    }
  }

  /** The comparator of `sortedComparisonData`, as "a may come before b". */
  function Order(sortBy: string): (Row, Row) -> bool {
    match sortBy
    case "successRate" => (a: Row, b: Row) => a.successRate >= b.successRate
    case "onlineUrls" => (a: Row, b: Row) => a.onlineUrls >= b.onlineUrls
    case _ => (a: Row, b: Row) => StrLe(a.name, b.name)
  }

  lemma OrderTotal(sortBy: string)
    ensures Total(Order(sortBy))
  {
    forall a: Row, b: Row ensures Order(sortBy)(a, b) || Order(sortBy)(b, a) {
      StrLeTotal(a.name, b.name);
    }
  }

  lemma OrderTransitive(sortBy: string)
    ensures Transitive(Order(sortBy))
  {
    forall a: Row, b: Row, c: Row | Order(sortBy)(a, b) && Order(sortBy)(b, c) ensures Order(sortBy)(a, c) {
      if sortBy != "successRate" && sortBy != "onlineUrls" {
        StrLeTrans(a.name, b.name, c.name);
      }
    }
  }

  /** `sortedComparisonData`: a sorted copy of the rows. */
  function SortedComparisonData(rows: seq<Row>, sortBy: string): (r: seq<Row>)
    ensures |r| == |rows| && multiset(r) == multiset(rows)
    ensures Sorted(r, Order(sortBy))
  {
    OrderTotal(sortBy);
    SortBySorted(rows, Order(sortBy));
    SortBy(rows, Order(sortBy))
  }

  /** Rows the chosen order ties (equal rates, equal counts) keep their selection order, as the stable `sort` keeps them. */
  lemma SortedComparisonDataStable(rows: seq<Row>, sortBy: string, k: Row)
    ensures Seqs.Filter(SortedComparisonData(rows, sortBy), TiedWith(Order(sortBy), k))
      == Seqs.Filter(rows, TiedWith(Order(sortBy), k))
  {
    OrderTransitive(sortBy);
    SortByStable(rows, Order(sortBy), k);
  }

  /** Sorted by success rate, a row never has a higher rate than any row above it. */
  lemma RatesDescend(rows: seq<Row>, i: nat, j: nat)
    requires i < j < |rows|
    ensures SortedComparisonData(rows, "successRate")[i].successRate >= SortedComparisonData(rows, "successRate")[j].successRate
  {
    OrderTransitive("successRate");
    SortedPairs(SortedComparisonData(rows, "successRate"), Order("successRate"), i, j);
  }

  /** The rate colour: green from 80, yellow from 50, red below. */
  function RateColor(successRate: nat): (c: string)
    ensures c == "text-green-500" <==> successRate >= 80
    ensures c == "text-yellow-500" <==> 50 <= successRate < 80
    ensures c == "text-red-500" <==> successRate < 50
  {
    if successRate >= 80 then "text-green-500"
    else if successRate >= 50 then "text-yellow-500"
    else "text-red-500"
  }
}
