/** The server-list page: the loaded servers narrowed by a case-insensitive name search. */
module ServerList {
  import opened Text
  import Seqs

  /** A server as the list file gives it; `kind` is its `type` field. */
  datatype Server = Server(id: int, name: string, url: string, kind: string)

  function NameMatches(search: string): Server -> bool {
    (s: Server) => Contains(ToLower(s.name), ToLower(search))
  }

  /** `filteredServers`: the servers whose lower-cased name contains the lower-cased search, in list order. */
  function FilteredServers(servers: seq<Server>, search: string): (r: seq<Server>)
    ensures forall s :: s in r <==> s in servers && Contains(ToLower(s.name), ToLower(search))
    ensures Seqs.Subsequence(r, servers)
  {
    Seqs.FilterSubsequence(servers, NameMatches(search));
    Seqs.Filter(servers, NameMatches(search))
  }

  /** The empty string occurs in every string. */
  lemma ContainsEmpty(s: string)
    ensures Contains(s, "")
  {
    ContainsAt(s, "", 0);
  }

  /** An empty search keeps every server. */
  lemma EmptySearchKeepsAll(servers: seq<Server>)
    ensures FilteredServers(servers, "") == servers
  {
    forall i | 0 <= i < |servers| ensures NameMatches("")(servers[i]) {
      ContainsEmpty(ToLower(servers[i].name));
    }
    Seqs.FilterAll(servers, NameMatches(""));
  }

  /** Case does not matter: a search and its lower-cased form keep the same servers. */
  lemma SearchIgnoresCase(servers: seq<Server>, search: string)
    ensures FilteredServers(servers, search) == FilteredServers(servers, ToLower(search))
  {
    LowerTwice(search);
  }

  lemma LowerTwice(s: string)
    ensures ToLower(ToLower(s)) == ToLower(s)
  {
  }
}
