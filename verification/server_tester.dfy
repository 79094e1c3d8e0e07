/**
 * The `useServerTester` hook: a bounded worker pool that probes every
 * server's first address with a no-cors `fetch` and records the outcome in a
 * result list keyed by server id.
 */
module ServerTester {
  import opened Wrappers
  import opened Browser

  datatype Server = Server(id: int, name: string, addresses: seq<string>, kind: string)

  datatype Status = Testing | Online | Offline

  datatype TestResult = TestResult(id: int, status: Status, responseTime: Option<nat>, error: Option<string>)

  const UnknownError := "An unknown error occurred"

  const DefaultConcurrencyLimit := 5

  /**
   * `testServer`: the result of a probe whose fetch has settled. The probe
   * never rejects; a fetch that never settles never produces a result.
   */
  function TestServer(server: Server, outcome: FetchOutcome): (r: TestResult)
    requires !outcome.Hangs?
    ensures r.id == server.id && r.status != Testing && r.responseTime == Some(outcome.at)
    ensures r.status == Online <==> outcome.Resolved?
    ensures r.error.Some? <==> outcome.Rejected?
    ensures outcome.Rejected? ==>
      r.error == Some(if outcome.error.ErrorObject? then outcome.error.message else UnknownError)
  {
    match outcome
    case Resolved(at) => TestResult(server.id, Online, Some(at), None)
    case Rejected(e, at) =>
      TestResult(server.id, Offline, Some(at), Some(if e.ErrorObject? then e.message else UnknownError))
  }

  /** The list `startTesting` shows before any probe: one `'testing'` entry per server, in order. */
  function InitialResults(servers: seq<Server>): (r: seq<TestResult>)
    ensures |r| == |servers|
    ensures forall i :: 0 <= i < |r| ==> r[i].id == servers[i].id && r[i].status == Testing
    ensures forall i :: 0 <= i < |r| ==> r[i].responseTime.None? && r[i].error.None?
  {
    seq(|servers|, i requires 0 <= i < |servers| => TestResult(servers[i].id, Testing, None, None))
  }

  /** The state update made when a probe settles: every entry with the result's id is replaced. */
  function Record(results: seq<TestResult>, result: TestResult): (r: seq<TestResult>)
    ensures |r| == |results|
    ensures forall i :: 0 <= i < |r| && results[i].id == result.id ==> r[i] == result
    ensures forall i :: 0 <= i < |r| && results[i].id != result.id ==> r[i] == results[i]
  {
    seq(|results|, i requires 0 <= i < |results| => if results[i].id == result.id then result else results[i])
  }

  /** Recording keeps every entry's id, so the list stays aligned with the servers. */
  lemma RecordKeepsIds(results: seq<TestResult>, result: TestResult)
    ensures forall i :: 0 <= i < |results| ==> Record(results, result)[i].id == results[i].id
  {
  }

  /** Recording the same result twice changes nothing the second time. */
  lemma RecordIdempotent(results: seq<TestResult>, result: TestResult)
    ensures Record(Record(results, result), result) == Record(results, result)
  {
  }

  /** The winner of one `Promise.race`: which in-flight probe settles, and how. */
  datatype Completion = Completion(pick: nat, outcome: FetchOutcome)

  function Ids(s: seq<Server>): set<int> {
    set j | 0 <= j < |s| :: s[j].id
  }

  lemma IdsConcat(a: seq<Server>, b: seq<Server>)
    ensures Ids(a + b) == Ids(a) + Ids(b)
  {
    forall id | id in Ids(a + b) ensures id in Ids(a) + Ids(b) {
      var j :| 0 <= j < |a + b| && (a + b)[j].id == id;
      if j >= |a| { assert b[j - |a|].id == id; }
    }
    forall id | id in Ids(a) ensures id in Ids(a + b) {
      var j :| 0 <= j < |a| && a[j].id == id;
      assert (a + b)[j].id == id;
    }
    forall id | id in Ids(b) ensures id in Ids(a + b) {
      var j :| 0 <= j < |b| && b[j].id == id;
      assert (a + b)[|a| + j].id == id;
    }
  }

  class Pool {
    var results: seq<TestResult>
    var isTesting: bool
    var queue: seq<Server>
    var inFlight: seq<Server>
    /** The servers handed to `testServer`, in dispatch order. */
    ghost var dispatched: seq<Server>
    /** How many probes have settled. */
    ghost var settledCount: nat
    /** The latest settled outcome for each id. */
    ghost var settled: map<int, FetchOutcome>
    /** The largest number of probes in flight at once so far. */
    ghost var peak: nat

    constructor ()
      ensures results == [] && !isTesting && queue == [] && inFlight == []
    {
      results, isTesting, queue, inFlight := [], false, [], [];
      dispatched, settledCount, settled, peak := [], 0, map[], 0;
    }

    /** The pool's bookkeeping while it works through `servers`. */
    ghost predicate Valid(servers: seq<Server>)
      reads this
    {
      && dispatched + queue == servers
      && settledCount + |inFlight| == |dispatched|
      && |inFlight| <= peak
      && |results| == |servers|
      && ResultsAgree(servers, results, settled, Ids(queue) + Ids(inFlight))
    }

    /**
     * Every outcome recorded is a real one; every result is still "testing" while its
     * server is `pending` (queued or in flight), and otherwise is the verdict on its outcome.
     */
    static ghost predicate ResultsAgree(servers: seq<Server>, results: seq<TestResult>, settled: map<int, FetchOutcome>, pending: set<int>)
      requires |results| == |servers|
    {
      && (forall id :: id in settled ==> !settled[id].Hangs?)
      && (forall i :: 0 <= i < |servers| ==> results[i].id == servers[i].id)
      && (forall i :: 0 <= i < |servers| && results[i].status == Testing ==> servers[i].id in pending)
      && (forall i :: 0 <= i < |servers| && results[i].status != Testing ==>
            servers[i].id in settled && results[i] == TestServer(servers[i], settled[servers[i].id]))
    }

    /** `queue.shift()` followed by `activePromises.push(...)`. */
    method Dispatch(ghost servers: seq<Server>)
      requires Valid(servers) && |queue| > 0
      modifies this
      ensures Valid(servers)
      ensures queue == old(queue)[1..] && inFlight == old(inFlight) + [old(queue)[0]]
      ensures dispatched == old(dispatched) + [old(queue)[0]]
      ensures peak == if |inFlight| > old(peak) then |inFlight| else old(peak)
      ensures results == old(results) && isTesting == old(isTesting)
      ensures settled == old(settled) && settledCount == old(settledCount)
    {
      ghost var pending := Ids(queue) + Ids(inFlight);
      assert ResultsAgree(servers, results, settled, pending);
      var server := queue[0];
      IdsConcat([server], queue[1..]);
      IdsConcat(inFlight, [server]);
      assert queue == [server] + queue[1..];
      queue := queue[1..];
      inFlight := inFlight + [server];
      dispatched := dispatched + [server];
      assert Ids(queue) + Ids(inFlight) == pending;
      assert ResultsAgree(servers, results, settled, Ids(queue) + Ids(inFlight));
      assert dispatched + queue == old(dispatched) + old(queue) by {
        assert old(queue) == [server] + queue;
      }
      if |inFlight| > peak {
        peak := |inFlight|;
      }
    }

    /** The probe at position `k` settles: its result is recorded and its slot freed. */
    method Complete(ghost servers: seq<Server>, k: nat, outcome: FetchOutcome)
      requires Valid(servers) && k < |inFlight| && !outcome.Hangs?
      modifies this
      ensures Valid(servers)
      ensures results == Record(old(results), TestServer(old(inFlight)[k], outcome))
      ensures inFlight == old(inFlight)[..k] + old(inFlight)[k + 1..]
      ensures settled == old(settled)[old(inFlight)[k].id := outcome]
      ensures settledCount == old(settledCount) + 1
      ensures queue == old(queue) && dispatched == old(dispatched) && peak == old(peak)
      ensures isTesting == old(isTesting)
    {
      var server := inFlight[k];
      var result := TestServer(server, outcome);
      ghost var before := Ids(queue) + Ids(inFlight);
      results := Record(results, result);
      inFlight := inFlight[..k] + inFlight[k + 1..];
      settled := settled[server.id := outcome];
      settledCount := settledCount + 1;
      forall i | 0 <= i < |servers| && results[i].status == Testing
        ensures servers[i].id in Ids(queue) + Ids(inFlight)
      {
        var id := servers[i].id;
        assert id != server.id;
        assert id in before;
        if id !in Ids(queue) {
          var j :| 0 <= j < |old(inFlight)| && old(inFlight)[j].id == id;
          assert j != k;
          if j < k {
            assert inFlight[j] == old(inFlight)[j];
          } else {
            assert inFlight[j - 1] == old(inFlight)[j];
          }
        }
      }
    }

    /**
     * One pass of the outer loop of `processQueue`: fill the free slots from
     * the queue, then wait for the race winner `c`.
     */
    method ProcessRound(ghost servers: seq<Server>, concurrencyLimit: int, c: Completion)
      requires Valid(servers) && !c.outcome.Hangs?
      requires |inFlight| <= concurrencyLimit || |inFlight| == 0
      modifies this
      ensures Valid(servers)
      ensures isTesting == old(isTesting)
      ensures |inFlight| <= concurrencyLimit || |inFlight| == 0
      ensures concurrencyLimit >= 1 ==> peak <= concurrencyLimit || peak == old(peak)
      // with a positive limit and work left, one probe has settled
      ensures concurrencyLimit >= 1 && (old(|queue|) > 0 || old(|inFlight|) > 0) ==>
        settledCount == old(settledCount) + 1 && 2 * |queue| + |inFlight| < old(2 * |queue| + |inFlight|)
      // with no positive limit and nothing in flight, the pass changes nothing: the loop spins
      ensures concurrencyLimit <= 0 && old(|inFlight|) == 0 ==>
        queue == old(queue) && inFlight == old(inFlight) && results == old(results)
        && dispatched == old(dispatched) && settledCount == old(settledCount)
    {
      while |queue| > 0 && |inFlight| < concurrencyLimit
        invariant Valid(servers) && isTesting == old(isTesting)
        invariant settledCount == old(settledCount)
        invariant |inFlight| <= concurrencyLimit || (|inFlight| == 0 && queue == old(queue))
        invariant concurrencyLimit >= 1 ==> peak <= concurrencyLimit || peak == old(peak)
        invariant 2 * |queue| + |inFlight| <= old(2 * |queue| + |inFlight|)
        invariant |inFlight| >= old(|inFlight|)
        invariant |inFlight| == old(|inFlight|) ==> queue == old(queue) && results == old(results)
        invariant |inFlight| == old(|inFlight|) ==> dispatched == old(dispatched)
        invariant |inFlight| > old(|inFlight|) ==> 2 * |queue| + |inFlight| < old(2 * |queue| + |inFlight|)
        decreases |queue|
      {
        Dispatch(servers);
      }
      if |inFlight| > 0 {
        Complete(servers, c.pick % |inFlight|, c.outcome);
      }
    }

    /**
     * `startTesting(concurrencyLimit)`: marks every server `'testing'`, then
     * runs the pool until the queue is empty and nothing is in flight.
     * `race[n]` decides the n-th race. A limit below 1 with servers to test
     * never finishes (see ProcessRound), so it is excluded here.
     */
    method StartTesting(servers: seq<Server>, concurrencyLimit: int, race: seq<Completion>)
      requires concurrencyLimit >= 1 || servers == []
      requires |race| >= |servers|
      requires forall n :: 0 <= n < |race| ==> !race[n].outcome.Hangs?
      modifies this
      ensures !isTesting && queue == [] && inFlight == []
      ensures dispatched == servers
      ensures settledCount == |servers|
      ensures servers != [] ==> peak <= concurrencyLimit
      ensures |results| == |servers|
      ensures forall i :: 0 <= i < |servers| ==> results[i].id == servers[i].id
      ensures forall i :: 0 <= i < |servers| ==> results[i].status != Testing
      ensures forall id :: id in settled ==> !settled[id].Hangs?
      ensures forall i :: 0 <= i < |servers| ==>
        servers[i].id in settled && results[i] == TestServer(servers[i], settled[servers[i].id])
    {
      Begin(servers);
      var round := 0;
      while |queue| > 0 || |inFlight| > 0
        invariant Valid(servers) && isTesting
        invariant round == settledCount
        invariant |inFlight| <= concurrencyLimit || |inFlight| == 0
        invariant servers != [] ==> peak <= concurrencyLimit
        decreases 2 * |queue| + |inFlight|
      {
        ProcessRound(servers, concurrencyLimit, race[round]);
        round := round + 1;
      }
      Finished(servers);
      isTesting := false;
    }

    /** `startTesting()` called without a limit: the default of five fetches at a time. */
    method StartTestingDefault(servers: seq<Server>, race: seq<Completion>)
      requires |race| >= |servers|
      requires forall n :: 0 <= n < |race| ==> !race[n].outcome.Hangs?
      modifies this
      ensures !isTesting && queue == [] && inFlight == []
      ensures dispatched == servers && |results| == |servers|
      ensures servers != [] ==> peak <= DefaultConcurrencyLimit
      ensures forall id :: id in settled ==> !settled[id].Hangs?
      ensures forall i :: 0 <= i < |servers| ==>
        servers[i].id in settled && results[i] == TestServer(servers[i], settled[servers[i].id])
    {
      StartTesting(servers, DefaultConcurrencyLimit, race);
    }

    /** The start of `startTesting`: every server queued and marked `'testing'`. */
    method Begin(servers: seq<Server>)
      modifies this
      ensures Valid(servers) && isTesting
      ensures queue == servers && inFlight == [] && dispatched == [] && settledCount == 0 && peak == 0
    {
      isTesting := true;
      results := InitialResults(servers);
      queue := servers;
      inFlight := [];
      dispatched, settledCount, settled, peak := [], 0, map[], 0;
      assert dispatched + queue == servers;
      forall i | 0 <= i < |servers|
        ensures results[i].status == Testing && servers[i].id in Ids(queue)
      {
      }
    }

    /** With nothing queued or in flight, every server has its settled result. */
    lemma Finished(servers: seq<Server>)
      requires Valid(servers) && queue == [] && inFlight == []
      ensures dispatched == servers && settledCount == |servers| && |results| == |servers|
      ensures forall i :: 0 <= i < |servers| ==> results[i].id == servers[i].id && results[i].status != Testing
      ensures forall i :: 0 <= i < |servers| ==>
        servers[i].id in settled && results[i] == TestServer(servers[i], settled[servers[i].id])
    {
      assert Ids(queue) + Ids(inFlight) == {};
    }

    /** `resetTesting`. */
    method ResetTesting()
      modifies this
      ensures results == [] && !isTesting
      ensures queue == old(queue) && inFlight == old(inFlight)
    {
      results := [];
      isTesting := false;
    }
  }
}
