/**
 * The home page: on mount every listed server is marked "Checking..." and a
 * `no-cors` fetch is started for it; as each fetch settles, that server's
 * entry in the status map becomes "Online" or "Offline".
 */
module Home {
  import opened Wrappers
  import opened Browser

  datatype Server = Server(name: string, url: string)

  const Checking := "Checking..."

  const Servers: seq<Server> := [
    Server("Sam Online", "http://10.16.100.244/"),
    Server("CTG Movies", "http://10.16.100.244/"),
    Server("ICC FTP", "http://10.16.100.244/"),
    Server("Discovery FTP", "http://10.16.100.244/")
  ]

  /** The status a settled check writes: the fetch option `timeout` has no effect, so only settling matters. */
  function Verdict(f: FetchOutcome): string {
    if f.Resolved? then "Online" else "Offline"
  }

  /** The `serverStatus` map, updated in place by each functional state update. */
  class StatusBoard {
    var status: map<string, string>

    constructor ()
      ensures status == map[]
    {
      status := map[];
    }

    /** The mount effect's `forEach`: every listed server is marked as being checked. */
    method Start()
      modifies this
      ensures forall i :: 0 <= i < |Servers| ==> Servers[i].name in status && status[Servers[i].name] == Checking
      ensures forall name :: name in old(status) ==> name in status
      ensures forall name :: name in old(status) && (forall i :: 0 <= i < |Servers| ==> Servers[i].name != name) ==>
        status[name] == old(status)[name]
    {
      for k := 0 to |Servers|
        invariant forall i :: 0 <= i < k ==> Servers[i].name in status && status[Servers[i].name] == Checking
        invariant forall name :: name in old(status) ==> name in status
        invariant forall name :: name in old(status) && (forall i :: 0 <= i < |Servers| ==> Servers[i].name != name) ==>
          status[name] == old(status)[name]
      {
        status := status[Servers[k].name := Checking];
      }
    }

    /** `checkServer`'s update when the server's fetch settles. */
    method Settle(name: string, f: FetchOutcome)
      requires !f.Hangs?
      modifies this
      ensures status == old(status)[name := Verdict(f)]
    {
      if f.Resolved? {
        status := status[name := "Online"];
      } else {
        status := status[name := "Offline"];
      }
    }
  }

  /** The badge text: `serverStatus[name] || 'Checking...'`. */
  function Display(status: map<string, string>, name: string): (t: string)
    ensures name !in status ==> t == Checking
    ensures name in status && status[name] != "" ==> t == status[name]
    ensures name in status && status[name] == "" ==> t == Checking
  {
    if name in status && status[name] != "" then status[name] else Checking
  }

  /** The badge colour: green for online, red for offline, yellow otherwise. */
  function BadgeClass(status: map<string, string>, name: string): (c: string)
    ensures c == "bg-yellow-500 text-white" <==> name !in status || (status[name] != "Online" && status[name] != "Offline")
  {
    if name in status && status[name] == "Online" then "bg-green-500 text-white"
    else if name in status && status[name] == "Offline" then "bg-red-500 text-white"
    else "bg-yellow-500 text-white"
  }

  /** The outcome of the last settlement reported for server `i` in `settled`, if any. */
  function Latest(settled: seq<(nat, FetchOutcome)>, i: nat): (r: Option<FetchOutcome>)
    ensures r.None? <==> forall j :: 0 <= j < |settled| ==> settled[j].0 != i
    ensures r.Some? ==> exists j :: 0 <= j < |settled| && settled[j] == (i, r.value)
  {
    if |settled| == 0 then None
    else if settled[|settled| - 1].0 == i then Some(settled[|settled| - 1].1)
    else
      var r := Latest(settled[..|settled| - 1], i);
      assert forall j :: 0 <= j < |settled| - 1 ==> settled[..|settled| - 1][j] == settled[j];
      r
  }

  /** What server `i`'s badge says once `settled` has come back: its latest verdict, or "Checking...". */
  function Shown(settled: seq<(nat, FetchOutcome)>, i: nat): (t: string)
    ensures t == Checking <==> Latest(settled, i).None?
  {
    match Latest(settled, i)
    case None => Checking
    case Some(f) => Verdict(f)
  }

  /**
   * The page after mounting, once the checks listed in `settled` have come
   * back, in that order: `settled` pairs a server's index with how its fetch
   * settled. A server whose fetch has not settled, or never does, still reads
   * "Checking..."; any other shows how its check went.
   */
  method Mount(settled: seq<(nat, FetchOutcome)>) returns (status: map<string, string>)
    requires forall j :: 0 <= j < |settled| ==> settled[j].0 < |Servers| && !settled[j].1.Hangs?
    ensures forall i :: 0 <= i < |Servers| ==> Servers[i].name in status
    ensures forall i :: 0 <= i < |Servers| ==> Display(status, Servers[i].name) == Shown(settled, i)
  {
    var board := new StatusBoard();
    board.Start();
    for n := 0 to |settled|
      invariant forall i :: 0 <= i < |Servers| ==> Servers[i].name in board.status
      invariant forall i :: 0 <= i < |Servers| ==>
        board.status[Servers[i].name] == Shown(settled[..n], i)
    {
      var (k, f) := settled[n];
      assert settled[..n + 1][..n] == settled[..n];
      board.Settle(Servers[k].name, f);
      NamesDistinct();
    }
    assert settled[..|settled|] == settled;
    status := board.status;
  }

  lemma NamesDistinct()
    ensures forall i, k :: 0 <= i < k < |Servers| ==> Servers[i].name != Servers[k].name
  {
  }
}
