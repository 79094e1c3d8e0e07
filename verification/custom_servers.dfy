/**
 * The user's own server list: add one server from the form, remove by id,
 * and append the servers of an imported JSON array. Ids come from the
 * clock and a random number in the browser; here they are parameters.
 */
module CustomServers {
  import opened Wrappers
  import Seqs

  datatype Server = Server(id: nat, name: string, url: string, category: string)

  datatype Form = Form(name: string, url: string)

  datatype State = State(customServers: seq<Server>, newServer: Form)

  /** `addServer`: with both fields filled, append a "Custom" server and clear the form; otherwise nothing. */
  function AddServer(state: State, id: nat): (next: State)
    ensures state.newServer.name != "" && state.newServer.url != "" ==>
      && next.customServers == state.customServers + [Server(id, state.newServer.name, state.newServer.url, "Custom")]
      && next.newServer == Form("", "")
    ensures state.newServer.name == "" || state.newServer.url == "" ==> next == state
  {
    if state.newServer.name != "" && state.newServer.url != "" then
      State(state.customServers + [Server(id, state.newServer.name, state.newServer.url, "Custom")], Form("", ""))
    else state
  }

  function HasOtherId(id: nat): Server -> bool {
    (s: Server) => s.id != id
  }

  /** `removeServer`: every server with that id goes, the rest stay in order. */
  function RemoveServer(servers: seq<Server>, id: nat): (r: seq<Server>)
    ensures forall s :: s in r <==> s in servers && s.id != id
    ensures r == Seqs.Filter(servers, HasOtherId(id))
  {
    Seqs.Filter(servers, HasOtherId(id))
  }

  /** Removing an id nobody has changes nothing. */
  lemma RemoveUnknownId(servers: seq<Server>, id: nat)
    requires forall i :: 0 <= i < |servers| ==> servers[i].id != id
    ensures RemoveServer(servers, id) == servers
  {
    Seqs.FilterAll(servers, HasOtherId(id));
  }

  /** Removing right after adding restores the list, when the new id was not in use. */
  lemma AddThenRemove(state: State, id: nat)
    requires state.newServer.name != "" && state.newServer.url != ""
    requires forall i :: 0 <= i < |state.customServers| ==> state.customServers[i].id != id
    ensures RemoveServer(AddServer(state, id).customServers, id) == state.customServers
  {
    var added := Server(id, state.newServer.name, state.newServer.url, "Custom");
    Seqs.FilterSnoc(state.customServers, added, HasOtherId(id));
    RemoveUnknownId(state.customServers, id);
  }

  /** What `JSON.parse` gave: an array of server records, or any other value. */
  datatype Json = JsonArray(elements: seq<Server>) | JsonOther

  /**
   * `importServers`: an array's elements are appended with fresh ids
   * (`freshId(i)` for the i-th), keeping their other fields; any other
   * value leaves the list alone, and a parse failure also raises an alert.
   */
  function ImportServers(servers: seq<Server>, parsed: Result<Json, string>, freshId: nat -> nat): (r: (seq<Server>, bool))
    ensures parsed.Success? && parsed.value.JsonArray? ==>
      var imported := parsed.value.elements;
      && |r.0| == |servers| + |imported|
      && r.0[..|servers|] == servers
      && forall i :: 0 <= i < |imported| ==> r.0[|servers| + i] == imported[i].(id := freshId(i))
    ensures !(parsed.Success? && parsed.value.JsonArray?) ==> r.0 == servers
    ensures r.1 <==> parsed.Failure?
  {
    match parsed
    case Failure(_) => (servers, true)
    case Success(JsonOther) => (servers, false)
    case Success(JsonArray(imported)) =>
      var withIds := seq(|imported|, i requires 0 <= i < |imported| => imported[i].(id := freshId(i)));
      assert (servers + withIds)[..|servers|] == servers;
      (servers + withIds, false)
  }
}
