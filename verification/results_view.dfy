/**
 * The grouped results list: servers grouped by category in first-appearance
 * order, each URL's status looked up by server name and URL position, and
 * the per-category expand flags.
 */
module ResultsView {
  import opened Text
  import Seqs
  import TestResultsPage

  datatype Server = Server(name: string, category: string, urls: seq<string>)

  function CategoriesOf(servers: seq<Server>): (cs: seq<string>)
    ensures |cs| == |servers| && forall i :: 0 <= i < |servers| ==> cs[i] == servers[i].category
  {
    seq(|servers|, i requires 0 <= i < |servers| => servers[i].category)
  }

  function InCategory(category: string): Server -> bool {
    (s: Server) => s.category == category
  }

  /**
   * What the grouping holds after the servers in `prefix`: `order` lists
   * the categories in first appearance, and each category's group holds its
   * servers in input order.
   */
  ghost predicate Grouped(prefix: seq<Server>, order: seq<string>, groups: map<string, seq<Server>>) {
    && order == Seqs.Distinct(CategoriesOf(prefix))
    && (forall c :: c in groups <==> c in order)
    && (forall c :: c in groups ==> groups[c] == Seqs.Filter(prefix, InCategory(c)))
    && (forall c :: c !in groups ==> Seqs.Filter(prefix, InCategory(c)) == [])
  }

  /**
   * The grouping loop; `order` is the order in which `Object.entries` yields
   * the categories.
   */
  method GroupByCategory(servers: seq<Server>) returns (order: seq<string>, groups: map<string, seq<Server>>)
    ensures order == Seqs.Distinct(CategoriesOf(servers))
    ensures forall c :: c in groups <==> c in order
    ensures forall c :: c in groups ==> groups[c] == Seqs.Filter(servers, InCategory(c))
  {
    order := [];
    groups := map[];
    for i := 0 to |servers|
      invariant Grouped(servers[..i], order, groups)
    {
      var server := servers[i];
      var c := server.category;
      GroupStep(servers[..i], server, order, groups);
      PrefixSnoc(servers, i);
      var group := if c in groups then groups[c] else [];
      order := if c in groups then order else order + [c];
      groups := groups[c := group + [server]];
    }
    assert servers[..|servers|] == servers;
  }

  lemma PrefixSnoc(servers: seq<Server>, i: nat)
    requires i < |servers|
    ensures servers[..i + 1] == servers[..i] + [servers[i]]
  {
  }

  /** One more server extends its category's group and, if its category is new, the order. */
  lemma GroupStep(prefix: seq<Server>, server: Server, order: seq<string>, groups: map<string, seq<Server>>)
    requires Grouped(prefix, order, groups)
    ensures var c := server.category;
      Grouped(prefix + [server],
        if c in groups then order else order + [c],
        groups[c := (if c in groups then groups[c] else []) + [server]])
  {
    var c := server.category;
    var order' := if c in groups then order else order + [c];
    var groups' := groups[c := (if c in groups then groups[c] else []) + [server]];
    var prefix' := prefix + [server];
    StepOrder(prefix, server, order);
    StepGroups(prefix, server, groups, groups');
    assert forall d :: d in groups' <==> d in order';
    assert Grouped(prefix', order', groups');
  }

  lemma StepOrder(prefix: seq<Server>, server: Server, order: seq<string>)
    requires order == Seqs.Distinct(CategoriesOf(prefix))
    ensures Seqs.Distinct(CategoriesOf(prefix + [server]))
      == if server.category in order then order else order + [server.category]
  {
    assert CategoriesOf(prefix + [server]) == CategoriesOf(prefix) + [server.category];
    Seqs.DistinctAfterSnoc(CategoriesOf(prefix), server.category, []);
  }

  lemma StepGroups(prefix: seq<Server>, server: Server, groups: map<string, seq<Server>>, groups': map<string, seq<Server>>)
    requires forall c :: c in groups ==> groups[c] == Seqs.Filter(prefix, InCategory(c))
    requires forall c :: c !in groups ==> Seqs.Filter(prefix, InCategory(c)) == []
    requires groups' == groups[server.category := (if server.category in groups then groups[server.category] else []) + [server]]
    ensures forall c :: c in groups' ==> groups'[c] == Seqs.Filter(prefix + [server], InCategory(c))
    ensures forall c :: c !in groups' ==> Seqs.Filter(prefix + [server], InCategory(c)) == []
  {
    forall d | d in groups' ensures groups'[d] == Seqs.Filter(prefix + [server], InCategory(d)) {
      StepGroup(prefix, server, d);
    }
    forall d | d !in groups' ensures Seqs.Filter(prefix + [server], InCategory(d)) == [] {
      StepGroup(prefix, server, d);
    }
  }

  lemma StepGroup(prefix: seq<Server>, server: Server, d: string)
    ensures Seqs.Filter(prefix + [server], InCategory(d))
      == Seqs.Filter(prefix, InCategory(d)) + (if server.category == d then [server] else [])
  {
    Seqs.FilterSnoc(prefix, server, InCategory(d));
  }

  /** Every server lands in its own category's group and in no other. */
  lemma GroupingPartitions(servers: seq<Server>, s: Server, c: string)
    requires s in servers
    ensures s in Seqs.Filter(servers, InCategory(s.category))
    ensures c != s.category ==> s !in Seqs.Filter(servers, InCategory(c))
    ensures s.category in Seqs.Distinct(CategoriesOf(servers))
  {
    var k :| 0 <= k < |servers| && servers[k] == s;
    assert CategoriesOf(servers)[k] == s.category;
  }

  /** The key a URL's status is stored under: the server name, a dash, the URL's position. */
  function StatusKey(name: string, urlIndex: nat): (k: string)
    ensures StartsWith(k, name + "-")
    ensures ParseDecimal(k[|name| + 1..]) == urlIndex
  {
    var k := name + "-" + NatToString(urlIndex);
    assert k[|name| + 1..] == NatToString(urlIndex);
    ParseNatToString(urlIndex);
    k
  }

  /** The status shown for a URL: the stored one when present and non-empty, otherwise "Unknown". */
  function UrlStatus(serverStatus: map<string, string>, name: string, urlIndex: nat): (status: string)
    ensures status != ""
    ensures status != "Unknown" ==> StatusKey(name, urlIndex) in serverStatus && serverStatus[StatusKey(name, urlIndex)] == status
    ensures StatusKey(name, urlIndex) !in serverStatus ==> status == "Unknown"
    ensures StatusKey(name, urlIndex) in serverStatus && serverStatus[StatusKey(name, urlIndex)] != "" ==>
      status == serverStatus[StatusKey(name, urlIndex)]
    ensures StatusKey(name, urlIndex) in serverStatus && serverStatus[StatusKey(name, urlIndex)] == "" ==>
      status == "Unknown"
  {
    var key := StatusKey(name, urlIndex);
    if key in serverStatus && serverStatus[key] != "" then serverStatus[key] else "Unknown"
  }

  /** `getStatusColor`: Online, Offline and "Checking..." get their own colours; the rest are grey. */
  function StatusColor(status: string): (c: string)
    ensures status == "Online" <==> c == "bg-green-100 text-green-800 border-green-200"
    ensures status == "Offline" <==> c == "bg-red-100 text-red-800 border-red-200"
    ensures status == "Checking..." <==> c == "bg-yellow-100 text-yellow-800 border-yellow-200"
    ensures status !in {"Online", "Offline", "Checking..."} ==> c == "bg-gray-100 text-gray-800 border-gray-200"
  {
    match status
    case "Online" => "bg-green-100 text-green-800 border-green-200"
    case "Offline" => "bg-red-100 text-red-800 border-red-200"
    case "Checking..." => "bg-yellow-100 text-yellow-800 border-yellow-200"
    case _ => "bg-gray-100 text-gray-800 border-gray-200"
  }

  /** A category is expanded when its flag is set; a missing flag reads as collapsed. */
  predicate Expanded(expanded: map<string, bool>, category: string) {
    category in expanded && expanded[category]
  }

  /** `toggleCategoryExpansion`: the given category's flag flips and no other changes. */
  function ToggleCategoryExpansion(expanded: map<string, bool>, category: string): (r: map<string, bool>)
    ensures Expanded(r, category) == !Expanded(expanded, category)
    ensures forall c :: c != category ==> (c in r <==> c in expanded) && (c in r ==> r[c] == expanded[c])
  {
    expanded[category := !Expanded(expanded, category)]
  }

  /** The URL label drops the first "http://" and the first "https://", as on the saved-results page. */
  function UrlLabel(url: string): string {
    TestResultsPage.DisplayAddress(url)
  }
}
