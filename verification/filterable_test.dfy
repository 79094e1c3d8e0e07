/**
 * The filterable page: a searchable, category-filtered and sortable list of
 * servers, each probed by loading its favicon, results keyed by
 * `category-name`.
 */
module FilterableTest {
  import opened Wrappers
  import opened Browser
  import opened Text
  import opened Sorting
  import Seqs

  datatype Server = Server(name: string, ip: string, category: string)

  const All := "All"

  const AllServers: seq<Server> := [
    Server("SAMONLINE FTP", "172.16.50.4", "FTP Servers"),
    Server("DISCOVERY FTP", "discoveryftp.net", "FTP Servers"),
    Server("WOW MOVIE ZONE FTP", "172.27.27.84", "FTP Servers"),
    Server("BUSINESS NETWORK FTP", "103.58.73.9", "FTP Servers"),
    Server("ICC COMMUNICATION FTP", "10.16.100.244", "FTP Servers"),
    Server("NATURALBD", "www.naturalbd.com", "Media Servers"),
    Server("DHAKAMOVIE", "dhakamovie.com", "Media Servers"),
    Server("CTGMOVIES", "ctgmovies.com", "Media Servers"),
    Server("MOVIEHAAT", "moviehaat.net", "Media Servers"),
    Server("BOSSBD", "www.bossbd.net", "Media Servers"),
    Server("ALPHAMEDIAZONE", "www.alphabroadway.com", "Software Repositories"),
    Server("BDPLEX", "bdplex.net", "Software Repositories"),
    Server("FREEDOWNLOADBD", "www.freedownloadbd.com", "Software Repositories"),
    Server("LINK3 INTERNET", "www.cinehub24.com", "ISP Specific"),
    Server("DHAKA FIBER NET", "media.dfnbd.net", "ISP Specific"),
    Server("GPISP", "gpisp.net", "ISP Specific"),
    Server("UNIQUE NET", "103.91.144.230", "Miscellaneous"),
    Server("CITY CLOUD BD", "103.102.253.250", "Miscellaneous"),
    Server("TIMEPASSBD", "www.timepassbd.live", "Miscellaneous"),
    Server("EBOX", "fs.ebox.live", "FTP Servers"),
    Server("POLLyFLIX", "pollyflix.com", "Media Servers"),
    Server("CIRCLE NET", "15.1.1.1", "FTP Servers"),
    Server("MAZEDA NETWORK", "172.22.22.101", "FTP Servers"),
    Server("IHUB", "ihub.live", "Media Servers")
  ]

  /** The key results are stored under. */
  function Key(s: Server): string {
    s.category + "-" + s.name
  }

  function CategoryOf(s: Server): string {
    s.category
  }

  function MapCategory(servers: seq<Server>): (r: seq<string>)
    ensures |r| == |servers| && forall i :: 0 <= i < |servers| ==> r[i] == servers[i].category
  {
    if |servers| == 0 then [] else [servers[0].category] + MapCategory(servers[1..])
  }

  /** `categories`: "All", then each category once, in the order the list first uses it. */
  function Categories(servers: seq<Server>): (cs: seq<string>)
    ensures |cs| >= 1 && cs[0] == All
    ensures forall c :: c in cs[1..] <==> exists i :: 0 <= i < |servers| && servers[i].category == c
    ensures Seqs.NoDuplicates(cs[1..])
  {
    var distinct := Seqs.Distinct(MapCategory(servers));
    assert ([All] + distinct)[1..] == distinct;
    forall c | c in distinct ensures exists i :: 0 <= i < |servers| && servers[i].category == c {
      var i :| 0 <= i < |MapCategory(servers)| && MapCategory(servers)[i] == c;
    }
    [All] + distinct
  }

  /** The search test: the lower-cased term occurs in the lower-cased name or address. */
  predicate MatchesSearch(term: string, s: Server) {
    Contains(ToLower(s.name), ToLower(term)) || Contains(ToLower(s.ip), ToLower(term))
  }

  /** The search filter (skipped for an empty term) followed by the category filter (skipped for "All"). */
  function Filtered(servers: seq<Server>, searchTerm: string, category: string): (r: seq<Server>)
    ensures forall s :: s in r <==>
      s in servers && (searchTerm == "" || MatchesSearch(searchTerm, s)) && (category == All || s.category == category)
    ensures multiset(r) <= multiset(servers)
  {
    var searched := if searchTerm == "" then servers else Seqs.Filter(servers, (s: Server) => MatchesSearch(searchTerm, s));
    if category == All then searched else Seqs.Filter(searched, (s: Server) => s.category == category)
  }

  /** `testResults[key] || 'unknown'`. */
  function StatusKey(results: map<string, string>, s: Server): string {
    if Key(s) in results && results[Key(s)] != "" then results[Key(s)] else "unknown"
  }

  /**
   * The comparator chosen by `sortOption`, as "`a` may stay before `b`": names,
   * addresses and categories ascend; statuses descend, so untested servers
   * ("unknown") come first, then "online", then "offline".
   */
  function Order(option: string, results: map<string, string>): (Server, Server) -> bool {
    match option
    case "ip" => (a: Server, b: Server) => StrLe(a.ip, b.ip)
    case "category" => (a: Server, b: Server) => StrLe(a.category, b.category)
    case "status" => (a: Server, b: Server) => StrLe(StatusKey(results, b), StatusKey(results, a))
    case _ => (a: Server, b: Server) => StrLe(a.name, b.name)
  }

  lemma OrderTotal(option: string, results: map<string, string>)
    ensures Total(Order(option, results))
  {
    var le := Order(option, results);
    forall a: Server, b: Server ensures le(a, b) || le(b, a) {
      match option
      case "ip" => StrLeTotal(a.ip, b.ip);
      case "category" => StrLeTotal(a.category, b.category);
      case "status" => StrLeTotal(StatusKey(results, b), StatusKey(results, a));
      case _ => StrLeTotal(a.name, b.name);
    }
  }

  lemma OrderTransitive(option: string, results: map<string, string>)
    ensures Transitive(Order(option, results))
  {
    var le := Order(option, results);
    forall a: Server, b: Server, c: Server | le(a, b) && le(b, c) ensures le(a, c) {
      match option
      case "ip" => StrLeTrans(a.ip, b.ip, c.ip);
      case "category" => StrLeTrans(a.category, b.category, c.category);
      case "status" => StrLeTrans(StatusKey(results, c), StatusKey(results, b), StatusKey(results, a));
      case _ => StrLeTrans(a.name, b.name, c.name);
    }
  }

  predicate KnownOption(option: string) {
    option == "name" || option == "ip" || option == "category" || option == "status"
  }

  /** `filteredAndSortedServers`: an unknown sort option leaves the filtered order alone. */
  function Visible(searchTerm: string, category: string, option: string, results: map<string, string>): (r: seq<Server>)
    ensures multiset(r) == multiset(Filtered(AllServers, searchTerm, category))
    ensures KnownOption(option) ==> Sorted(r, Order(option, results))
    ensures !KnownOption(option) ==> r == Filtered(AllServers, searchTerm, category)
  {
    var filtered := Filtered(AllServers, searchTerm, category);
    if KnownOption(option) then
      OrderTotal(option, results);
      SortBySorted(filtered, Order(option, results));
      SortBy(filtered, Order(option, results))
    else filtered
  }

  /** Servers the chosen order ties keep their filtered order, as the stable `sort` keeps them. */
  lemma VisibleStable(searchTerm: string, category: string, option: string, results: map<string, string>, k: Server)
    requires KnownOption(option)
    ensures var le := Order(option, results);
      Seqs.Filter(Visible(searchTerm, category, option, results), TiedWith(le, k))
      == Seqs.Filter(Filtered(AllServers, searchTerm, category), TiedWith(le, k))
  {
    OrderTransitive(option, results);
    SortByStable(Filtered(AllServers, searchTerm, category), Order(option, results), k);
  }

  /** Before any test every status reads "unknown", so sorting by status shows the filtered list as it is. */
  lemma UntestedStatusSortKeepsOrder(searchTerm: string, category: string)
    ensures Visible(searchTerm, category, "status", map[]) == Filtered(AllServers, searchTerm, category)
  {
    StatusSortUntested(Filtered(AllServers, searchTerm, category));
  }

  /** With no results recorded, the status comparator ties every pair, so the sort is the identity. */
  lemma StatusSortUntested(s: seq<Server>)
    ensures SortBy(s, Order("status", map[])) == s
  {
    var le := Order("status", map[]);
    StrLeTotal("unknown", "unknown");
    assert forall a: Server, b: Server :: le(a, b);
    OrderTransitive("status", map[]);
    SortByAllTied(s, le);
  }

  /** `testServer`: a load and an error both count as online; only the timer means offline. */
  function Probe(evs: seq<ImageEvent>): (status: string)
    ensures status == "online" <==> evs != [] && !evs[0].ImageTimer?
    ensures status != "online" ==> status == "offline"
  {
    if ImageAnswer(evs).Some? then "online" else "offline"
  }

  /** The state updates `testVisibleServers` makes, in order: one per visible server. */
  function Updates(visible: seq<Server>, events: seq<seq<ImageEvent>>): (ups: seq<(string, string)>)
    requires |events| == |visible|
    ensures |ups| == |visible|
    ensures forall i :: 0 <= i < |visible| ==> ups[i] == (Key(visible[i]), Probe(events[i]))
  {
    seq(|visible|, i requires 0 <= i < |visible| => (Key(visible[i]), Probe(events[i])))
  }

  /** The page state that `setTestResults` and `setIsTesting` update. */
  class Page {
    var testResults: map<string, string>
    var isTesting: bool

    constructor ()
      ensures testResults == map[] && !isTesting
    {
      testResults := map[];
      isTesting := false;
    }

    /** `testVisibleServers`: each visible server is probed in turn and its status recorded. */
    method TestVisibleServers(visible: seq<Server>, events: seq<seq<ImageEvent>>)
      requires |events| == |visible|
      modifies this
      ensures !isTesting
      ensures testResults == Seqs.Assign(old(testResults), Updates(visible, events))
    {
      isTesting := true;
      ghost var ups := Updates(visible, events);
      for i := 0 to |visible|
        invariant testResults == Seqs.Assign(old(testResults), ups[..i])
      {
        var status := Probe(events[i]);
        Seqs.AssignStep(old(testResults), ups, i);
        testResults := testResults[Key(visible[i]) := status];
      }
      assert ups[..|visible|] == ups;
      isTesting := false;
    }

    /** `testSingleServer`. */
    method TestSingleServer(server: Server, evs: seq<ImageEvent>)
      modifies this
      ensures testResults == old(testResults)[Key(server) := Probe(evs)]
      ensures isTesting == old(isTesting)
    {
      testResults := testResults[Key(server) := Probe(evs)];
    }
  }

  /** "Not Tested": the visible servers with no recorded result. */
  function NotTested(visible: seq<Server>, results: map<string, string>): (n: nat)
    ensures n <= |visible|
    ensures n == 0 <==> forall i :: 0 <= i < |visible| ==> Key(visible[i]) in results
  {
    Seqs.FilterAll(visible, (s: Server) => Key(s) in results);
    |visible| - Seqs.Count(visible, (s: Server) => Key(s) in results)
  }

  /**
   * After testing the visible servers none of them is left untested, and each
   * shows the status of its own probe (keys are unique in the catalogue).
   */
  lemma AllVisibleTested(results: map<string, string>, visible: seq<Server>, events: seq<seq<ImageEvent>>)
    requires |events| == |visible|
    ensures NotTested(visible, Seqs.Assign(results, Updates(visible, events))) == 0
    ensures forall i :: 0 <= i < |visible| && (forall j :: i < j < |visible| ==> Key(visible[j]) != Key(visible[i])) ==>
      Seqs.Assign(results, Updates(visible, events))[Key(visible[i])] == Probe(events[i])
  {
    var ups := Updates(visible, events);
    forall i | 0 <= i < |visible| && (forall j :: i < j < |visible| ==> Key(visible[j]) != Key(visible[i]))
      ensures Seqs.Assign(results, ups)[Key(visible[i])] == Probe(events[i])
    {
      Seqs.AssignLast(results, ups, i);
    }
  }

  /** The Online and Offline totals: how many recorded results have that status. */
  function CountStatus(results: map<string, string>, status: string): (n: nat)
    ensures n <= |results|
  {
    var keys := set k | k in results && results[k] == status;
    assert keys <= results.Keys;
    SubsetCard(keys, results.Keys);
    |keys|
  }

  lemma SubsetCard<K>(a: set<K>, b: set<K>)
    requires a <= b
    ensures |a| <= |b|
  {
    if a != {} {
      var x :| x in a;
      SubsetCard(a - {x}, b - {x});
    }
  }

  /** The Online and Offline totals never exceed the number of results together. */
  lemma OnlineOfflineBounded(results: map<string, string>)
    ensures CountStatus(results, "online") + CountStatus(results, "offline") <= |results|
  {
    var on := set k | k in results && results[k] == "online";
    var off := set k | k in results && results[k] == "offline";
    assert on !! off;
    assert on + off <= results.Keys;
    SubsetCard(on + off, results.Keys);
  }

  /** `getStatusText` applied to a recorded status; a server without one reads "Not Tested". */
  function StatusLabel(results: map<string, string>, s: Server): (t: string)
    ensures t == "Online" <==> Key(s) in results && results[Key(s)] == "online"
    ensures t == "Not Tested" <==> Key(s) !in results || results[Key(s)] == ""
  {
    if Key(s) in results && results[Key(s)] != "" then
      (if results[Key(s)] == "online" then "Online" else "Offline")
    else "Not Tested"
  }
}
