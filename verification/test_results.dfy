/**
 * The saved-results page: a sorted copy of the last run's results, the
 * status counts shown above it, and the address shown for each URL.
 */
module TestResultsPage {
  import opened Wrappers
  import opened Text
  import opened Sorting
  import Seqs

  datatype Server = Server(name: string, category: string)
  datatype Result = Result(server: Server, url: string, urlIndex: nat, status: string)

  /** `getStatusOrder`: Online first, then "Checking...", then everything else. */
  function StatusOrder(status: string): (r: nat)
    ensures 1 <= r <= 3
    ensures r == 1 <==> status == "Online"
    ensures r == 2 <==> status == "Checking..."
  {
    match status
    case "Online" => 1
    case "Checking..." => 2
    case _ => 3
  }

  /** The comparator of `sortedResults`, as "a may come before b". */
  function Order(sortBy: string): (Result, Result) -> bool {
    if sortBy == "status" then
      (a: Result, b: Result) =>
        StatusOrder(a.status) < StatusOrder(b.status) ||
        (StatusOrder(a.status) == StatusOrder(b.status) && StrLe(a.server.name, b.server.name))
    else
      (a: Result, b: Result) => StrLe(a.server.name, b.server.name)
  }

  lemma OrderTotal(sortBy: string)
    ensures Total(Order(sortBy))
  {
    forall a: Result, b: Result ensures Order(sortBy)(a, b) || Order(sortBy)(b, a) {
      StrLeTotal(a.server.name, b.server.name);
    }
  }

  lemma OrderTransitive(sortBy: string)
    ensures Transitive(Order(sortBy))
  {
    var le := Order(sortBy);
    forall a: Result, b: Result, c: Result | le(a, b) && le(b, c) ensures le(a, c) {
      if StrLe(a.server.name, b.server.name) && StrLe(b.server.name, c.server.name) {
        StrLeTrans(a.server.name, b.server.name, c.server.name);
      }
    }
  }

  /** `sortedResults`: no saved results show nothing; otherwise a sorted permutation of them. */
  function SortedResults(testResults: Option<seq<Result>>, sortBy: string): (r: seq<Result>)
    ensures testResults.None? ==> r == []
    ensures testResults.Some? ==> multiset(r) == multiset(testResults.value)
    ensures testResults.Some? ==> Sorted(r, Order(sortBy))
  {
    match testResults
    case None => []
    case Some(results) =>
      OrderTotal(sortBy);
      SortBySorted(results, Order(sortBy));
      SortBy(results, Order(sortBy))
  }

  /** Sorting by status puts every Online result before every result that is not Online. */
  lemma OnlineFirst(results: seq<Result>, i: nat, j: nat)
    requires i < |SortedResults(Some(results), "status")| && j < |SortedResults(Some(results), "status")|
    requires SortedResults(Some(results), "status")[i].status != "Online"
    requires SortedResults(Some(results), "status")[j].status == "Online"
    ensures j < i
  {
    var r := SortedResults(Some(results), "status");
    OrderTransitive("status");
    if i < j {
      SortedPairs(r, Order("status"), i, j);
    }
  }

  function CountStatus(results: Option<seq<Result>>, status: string): (n: nat)
    ensures results.None? ==> n == 0
    ensures results.Some? ==> n <= |results.value|
  {
    match results
    case None => 0
    case Some(rs) => Seqs.Count(rs, (r: Result) => r.status == status)
  }

  /** The Online, Offline and "Checking..." counts never add up to more than the total shown. */
  lemma CountsBounded(results: seq<Result>)
    ensures CountStatus(Some(results), "Online") + CountStatus(Some(results), "Offline")
          + CountStatus(Some(results), "Checking...") <= |results|
  {
    var online := (r: Result) => r.status == "Online";
    var offline := (r: Result) => r.status == "Offline";
    var checking := (r: Result) => r.status == "Checking...";
    var either := (r: Result) => r.status == "Online" || r.status == "Offline";
    Seqs.CountDisjoint(results, either, checking);
    Seqs.CountDisjoint(Seqs.Filter(results, either), online, offline);
    FilterEither(results, online, offline, either);
  }

  /** Counting under `p` or `q` is counting `p` and then `q` among what passes `either`. */
  lemma {:induction false} FilterEither(s: seq<Result>, p: Result -> bool, q: Result -> bool, either: Result -> bool)
    requires forall x :: either(x) == (p(x) || q(x))
    ensures Seqs.Count(s, p) == Seqs.Count(Seqs.Filter(s, either), p)
    ensures Seqs.Count(s, q) == Seqs.Count(Seqs.Filter(s, either), q)
  {
    if |s| > 0 {
      FilterEither(s[1..], p, q, either);
    }
  }

  /** `getStatusColor`: green for Online, red for Offline, grey otherwise. */
  function StatusColor(status: string): (c: string)
    ensures status == "Online" <==> c == "bg-green-100 text-green-800 border-green-200"
    ensures status == "Offline" <==> c == "bg-red-100 text-red-800 border-red-200"
  {
    match status
    case "Online" => "bg-green-100 text-green-800 border-green-200"
    case "Offline" => "bg-red-100 text-red-800 border-red-200"
    case _ => "bg-gray-100 text-gray-800 border-gray-200"
  }

  /** The address column: the first "http://" removed, then the first "https://". */
  function DisplayAddress(url: string): string {
    ReplaceFirst(ReplaceFirst(url, "http://", ""), "https://", "")
  }

  /** An address given as "http://" followed by a host loses the scheme. */
  lemma DisplayPlainHttp(host: string)
    requires !Contains(host, "https://")
    ensures DisplayAddress("http://" + host) == host
  {
    ReplaceFirstLeading("http://", host);
  }

  /** An address given as "https://" followed by a host passes the first replace untouched and loses its scheme in the second. */
  lemma DisplayPlainHttps(host: string)
    requires !Contains(host, "http://")
    ensures DisplayAddress("https://" + host) == host
  {
    var u := "https://" + host;
    forall j | 0 <= j <= |u| ensures !StartsWith(u[j..], "http://") {
      if j >= 8 {
        assert u[j..] == host[j - 8..];
      } else if j + 7 <= |u| {
        assert u[j..][0] == u[j] && u[j..][4] == u[j + 4];
        assert u[j] != 'h' || u[j + 4] != ':';
      }
    }
    if Contains(u, "http://") {
      StartsAtIndex(u, "http://");
      assert false;
    }
    ReplaceFirstLeading("https://", host);
  }

  /** The removal is not anchored at the start: an "http://" after other text goes too. */
  lemma DisplayUnanchored()
    ensures DisplayAddress(" http://x") == " x"
  {
    var whole := " " + "http://" + "x";
    assert whole[0..][..7][0] == ' ' != 'h';
    ReplaceFirstInside(" ", "http://", "x");
    assert " " + "http://" + "x" == " http://x";
    assert !Contains(" x", "https://");
  }
}
