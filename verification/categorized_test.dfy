/**
 * The categorized page: servers grouped by category in a fixed order,
 * probed category by category, with per-category online and tested counts
 * and collapsible sections.
 */
module CategorizedTest {
  import opened Wrappers
  import opened Browser
  import opened Text
  import Seqs

  datatype Server = Server(name: string, ip: string)

  datatype Category = Category(name: string, servers: seq<Server>)

  /** `categorizedServers`, in declaration order (the order `for ... in` visits its keys). */
  const Catalogue: seq<Category> := [
    Category("FTP Servers", [
      Server("SAMONLINE FTP", "172.16.50.4"), Server("DISCOVERY FTP", "discoveryftp.net"),
      Server("WOW MOVIE ZONE FTP", "172.27.27.84"), Server("BUSINESS NETWORK FTP", "103.58.73.9"),
      Server("ICC COMMUNICATION FTP", "10.16.100.244")]),
    Category("Media Servers", [
      Server("NATURALBD", "www.naturalbd.com"), Server("DHAKAMOVIE", "dhakamovie.com"),
      Server("CTGMOVIES", "ctgmovies.com"), Server("MOVIEHAAT", "moviehaat.net"),
      Server("BOSSBD", "www.bossbd.net")]),
    Category("Software Repositories", [
      Server("ALPHAMEDIAZONE", "www.alphabroadway.com"), Server("BDPLEX", "bdplex.net"),
      Server("FREEDOWNLOADBD", "www.freedownloadbd.com")]),
    Category("ISP Specific", [
      Server("LINK3 INTERNET", "www.cinehub24.com"), Server("DHAKA FIBER NET", "media.dfnbd.net"),
      Server("GPISP", "gpisp.net")]),
    Category("Miscellaneous", [
      Server("UNIQUE NET", "103.91.144.230"), Server("CITY CLOUD BD", "103.102.253.250"),
      Server("TIMEPASSBD", "www.timepassbd.live")])
  ]

  /** The key a server's result is stored under. */
  function Key(category: string, s: Server): string {
    category + "-" + s.name
  }

  /** `testServer`: a load and an error both count as online; only the timer means offline. */
  function Probe(evs: seq<ImageEvent>): (status: string)
    ensures status == "online" <==> evs != [] && !evs[0].ImageTimer?
    ensures status != "online" ==> status == "offline"
  {
    if ImageAnswer(evs).Some? then "online" else "offline"
  }

  /** The updates `testCategory` makes, in order; `net(ip)` is what the favicon probe of `ip` observes. */
  function CategoryUpdates(c: Category, net: string -> seq<ImageEvent>): (ups: seq<(string, string)>)
    ensures |ups| == |c.servers|
    ensures forall i :: 0 <= i < |c.servers| ==> ups[i] == (Key(c.name, c.servers[i]), Probe(net(c.servers[i].ip)))
  {
    seq(|c.servers|, i requires 0 <= i < |c.servers| => (Key(c.name, c.servers[i]), Probe(net(c.servers[i].ip))))
  }

  /** The updates `testAllServers` makes: every category's, in catalogue order. */
  function AllUpdates(cats: seq<Category>, net: string -> seq<ImageEvent>): seq<(string, string)> {
    if |cats| == 0 then [] else AllUpdates(cats[..|cats| - 1], net) + CategoryUpdates(cats[|cats| - 1], net)
  }

  /** The page state: results keyed by `category-name`, the running flag, and which sections are open. */
  class Page {
    var testResults: map<string, string>
    var isTesting: bool
    var expanded: map<string, bool>

    constructor ()
      ensures testResults == map[] && !isTesting && expanded == map[]
    {
      testResults := map[];
      isTesting := false;
      expanded := map[];
    }

    /** `testCategory`: the category's servers are probed in order and each result recorded. */
    method TestCategory(c: Category, net: string -> seq<ImageEvent>)
      modifies this
      ensures testResults == Seqs.Assign(old(testResults), CategoryUpdates(c, net))
      ensures isTesting == old(isTesting) && expanded == old(expanded)
    {
      ghost var ups := CategoryUpdates(c, net);
      ghost var start := testResults;
      for i := 0 to |c.servers|
        invariant testResults == Seqs.Assign(start, ups[..i])
        invariant isTesting == old(isTesting) && expanded == old(expanded)
      {
        var server := c.servers[i];
        var status := Probe(net(server.ip));
        Seqs.AssignStep(start, ups, i);
        testResults := testResults[Key(c.name, server) := status];
      }
      assert ups[..|c.servers|] == ups;
    }

    /** `testAllServers`: the results are cleared and every category is tested in order. */
    method TestAllServers(cats: seq<Category>, net: string -> seq<ImageEvent>)
      modifies this
      ensures testResults == Seqs.Assign(map[], AllUpdates(cats, net))
      ensures !isTesting && expanded == old(expanded)
    {
      isTesting := true;
      testResults := map[];
      for k := 0 to |cats|
        invariant testResults == Seqs.Assign(map[], AllUpdates(cats[..k], net))
        invariant expanded == old(expanded)
      {
        assert cats[..k + 1][..k] == cats[..k];
        Seqs.AssignAppend(map[], AllUpdates(cats[..k], net), CategoryUpdates(cats[k], net));
        TestCategory(cats[k], net);
      }
      assert cats[..|cats|] == cats;
      isTesting := false;
    }

    /** `toggleCategory`: `!prev[category]`, so a section never toggled before opens. */
    method ToggleCategory(category: string)
      modifies this
      ensures expanded == old(expanded)[category := !IsOpen(old(expanded), category)]
      ensures testResults == old(testResults) && isTesting == old(isTesting)
    {
      expanded := expanded[category := !IsOpen(expanded, category)];
    }
  }

  /** Whether a section is drawn open: a missing entry reads as closed. */
  function IsOpen(expanded: map<string, bool>, category: string): bool {
    category in expanded && expanded[category]
  }

  /** Toggling flips one section and leaves the others as they were. */
  lemma ToggleFlips(expanded: map<string, bool>, category: string, other: string)
    ensures IsOpen(expanded[category := !IsOpen(expanded, category)], category) == !IsOpen(expanded, category)
    ensures other != category ==>
      IsOpen(expanded[category := !IsOpen(expanded, category)], other) == IsOpen(expanded, other)
  {
  }

  /** The category summary: how many of its servers are online and how many have any result. */
  function OnlineCount(c: Category, results: map<string, string>): nat {
    Seqs.Count(c.servers, (s: Server) => Key(c.name, s) in results && results[Key(c.name, s)] == "online")
  }

  function TestedCount(c: Category, results: map<string, string>): nat {
    Seqs.Count(c.servers, (s: Server) => Key(c.name, s) in results)
  }

  /** A server counted online has a result, so the counts are ordered. */
  lemma CountsOrdered(c: Category, results: map<string, string>)
    ensures OnlineCount(c, results) <= TestedCount(c, results) <= |c.servers|
  {
    Seqs.CountMonotone(c.servers,
      (s: Server) => Key(c.name, s) in results && results[Key(c.name, s)] == "online",
      (s: Server) => Key(c.name, s) in results);
  }

  /** "`online`/`total` Online", with "(`tested` tested)" only while a category is partly tested. */
  function SummaryText(c: Category, results: map<string, string>): (t: string)
    ensures StartsWith(t, NatToString(OnlineCount(c, results)) + "/" + NatToString(|c.servers|) + " Online")
    ensures EndsWith(t, " tested)") <==> 0 < TestedCount(c, results) < |c.servers|
    ensures 0 < TestedCount(c, results) < |c.servers| ==>
      EndsWith(t, " (" + NatToString(TestedCount(c, results)) + " tested)")
    ensures !(0 < TestedCount(c, results) < |c.servers|) ==>
      t == NatToString(OnlineCount(c, results)) + "/" + NatToString(|c.servers|) + " Online"
  {
    var head := NatToString(OnlineCount(c, results)) + "/" + NatToString(|c.servers|) + " Online";
    var tested := TestedCount(c, results);
    if 0 < tested < |c.servers| then
      var t := head + " (" + NatToString(tested) + " tested)";
      assert t[..|head|] == head;
      assert t[|t| - |" tested)"|..] == " tested)";
      var tail := " (" + NatToString(tested) + " tested)";
      assert t == head + tail && t[|t| - |tail|..] == tail;
      t
    else
      assert head[..|head|] == head;
      assert !EndsWith(head, " tested)") by {
        if |" tested)"| <= |head| { assert head[|head| - 1] == 'e'; }
      }
      head
  }

  /** After `testAllServers` every catalogue server has a result, so no summary shows a tested count. */
  lemma AllTestedAfterRun(cats: seq<Category>, net: string -> seq<ImageEvent>, k: nat)
    requires k < |cats|
    ensures TestedCount(cats[k], Seqs.Assign(map[], AllUpdates(cats, net))) == |cats[k].servers|
  {
    var results := Seqs.Assign(map[], AllUpdates(cats, net));
    forall i | 0 <= i < |cats[k].servers| ensures Key(cats[k].name, cats[k].servers[i]) in results {
      AllUpdatesHas(cats, net, k, i);
    }
    Seqs.FilterAll(cats[k].servers, (s: Server) => Key(cats[k].name, s) in results);
  }

  lemma {:induction false} AllUpdatesHas(cats: seq<Category>, net: string -> seq<ImageEvent>, k: nat, i: nat)
    requires k < |cats| && i < |cats[k].servers|
    ensures Key(cats[k].name, cats[k].servers[i]) in Seqs.UpdatedKeys(AllUpdates(cats, net))
  {
    var last := |cats| - 1;
    var prefix := AllUpdates(cats[..last], net);
    var own := CategoryUpdates(cats[last], net);
    Seqs.UpdatedKeysAppend(prefix, own);
    if k == last {
      assert own[i].0 == Key(cats[k].name, cats[k].servers[i]);
    } else {
      assert cats[..last][k] == cats[k];
      AllUpdatesHas(cats[..last], net, k, i);
    }
  }

  /** The badge text: `getStatusText` on a recorded status, "Not Tested" when there is none. */
  function StatusLabel(results: map<string, string>, key: string): (t: string)
    ensures t == "Online" <==> key in results && results[key] == "online"
    ensures t == "Not Tested" <==> key !in results || results[key] == ""
  {
    if key in results && results[key] != "" then (if results[key] == "online" then "Online" else "Offline")
    else "Not Tested"
  }
}
