/**
 * The suggestion lookup endpoint: a fixed catalogue, filtered by a
 * case-insensitive match on name or category, or its first five entries
 * when no query is given.
 */
module ApiServers {
  import opened Wrappers
  import opened Text
  import Seqs

  datatype Suggestion = Suggestion(name: string, category: string, description: string)

  const AllServers: seq<Suggestion> := [
    Suggestion("SAMONLINE FTP SERVER", "FTP Servers", "Popular movie and software FTP server"),
    Suggestion("DISCOVERY FTP SERVER", "FTP Servers", "General content FTP server"),
    Suggestion("CTGMOVIES FTP SERVER", "Media Servers", "Chittagong-based movie server"),
    Suggestion("BOSSBD FTP SERVER", "Media Servers", "High-speed movie content server"),
    Suggestion("NATURALBD FTP SERVER", "Media Servers", "NaturalBD entertainment content"),
    Suggestion("ALPHAMEDIAZONE FTP SERVER", "Software & Applications", "Software and application repository"),
    Suggestion("DHAKA FIBER NET FTP SERVER", "ISP Specific", "Dhaka Fiber Network content server")
  ]

  const DefaultCount: nat := 5

  function Matches(query: string): Suggestion -> bool {
    (s: Suggestion) => Contains(ToLower(s.name), ToLower(query)) || Contains(ToLower(s.category), ToLower(query))
  }

  /**
   * `GET`: the `q` parameter, missing or empty, gives the first five
   * entries; otherwise every entry whose name or category contains it,
   * ignoring case, with no cap.
   */
  function Get(q: Option<string>): (r: seq<Suggestion>)
    ensures q.None? || q.value == "" ==> r == AllServers[..DefaultCount]
    ensures q.Some? && q.value != "" ==>
      forall s :: s in r <==> s in AllServers && Matches(q.value)(s)
    ensures Seqs.Subsequence(r, AllServers)
  {
    var query := q.GetOr("");
    if query != "" then
      Seqs.FilterSubsequence(AllServers, Matches(query));
      Seqs.Filter(AllServers, Matches(query))
    else
      PrefixSubsequence(AllServers, DefaultCount);
      AllServers[..DefaultCount]
  }

  lemma {:induction false} PrefixSubsequence(s: seq<Suggestion>, n: nat)
    requires n <= |s|
    ensures Seqs.Subsequence(s[..n], s)
  {
    if n > 0 {
      PrefixSubsequence(s[1..], n - 1);
      assert s[..n][1..] == s[1..][..n - 1];
    }
  }
}
