/**
 * The browser primitives the probes rely on, reduced to the events they
 * deliver. The order of a sequence of events is the order in which the page's
 * handlers run; `at` is the value `Date.now() - startTime` would have when the
 * handler runs. Network, timers and the clock themselves are not modelled.
 */
module Browser {
  import opened Wrappers

  /** The value a rejected promise or a `catch` receives. */
  datatype Thrown = ErrorObject(message: string) | OtherValue

  /** `error.message` as a template literal renders it: a value that is not an Error has no message. */
  function MessageText(t: Thrown): string {
    match t
    case ErrorObject(m) => m
    case OtherValue => "undefined"
  }

  /** How a `fetch` call settles; `Hangs` is a request that never settles. */
  datatype FetchOutcome = Resolved(at: nat) | Rejected(error: Thrown, at: nat) | Hangs

  /** The message of the `AbortError` an `AbortController.abort()` makes `fetch` reject with. */
  const AbortMessage := "signal is aborted without reason"

  /**
   * A fetch raced against `setTimeout(() => controller.abort(), timeoutMs)`:
   * anything that has not settled before the timer becomes an abort rejection.
   */
  function WithAbort(f: FetchOutcome, timeoutMs: nat): (g: FetchOutcome)
    ensures !g.Hangs?
    ensures g.Resolved? <==> f.Resolved? && f.at < timeoutMs
    ensures !f.Hangs? && f.at < timeoutMs ==> g == f
    ensures (f.Hangs? || f.at >= timeoutMs) ==> g == Rejected(ErrorObject(AbortMessage), timeoutMs)
  {
    if !f.Hangs? && f.at < timeoutMs then f else Rejected(ErrorObject(AbortMessage), timeoutMs)
  }

  /**
   * What an `XMLHttpRequest` probe can observe: a `readystatechange`, the
   * `error` and `timeout` events, `open`/`send` throwing, and the page's own
   * `setTimeout` firing.
   */
  datatype XhrEvent =
    | ReadyStateChange(readyState: int, status: int, at: nat)
    | NetworkError(at: nat)
    | XhrTimeout(at: nat)
    | OpenSendThrew
    | TimerFired

  /** What an `Image` probe can observe: `onload`, `onerror`, and the page's timer. */
  datatype ImageEvent = ImageLoad(at: nat) | ImageError(at: nat) | ImageTimer

  /**
   * The reaction of the first handler that acts on `evs`, when `react` says
   * how a handler reacts to one event (`None`: it does nothing). A promise
   * settles once, and the pages guard their handlers with a `completed` flag
   * to the same effect, so later reactions are lost.
   */
  function FirstSettle<E, T>(react: E -> Option<T>, evs: seq<E>): (r: Option<T>)
    ensures r.Some? <==> exists i :: 0 <= i < |evs| && react(evs[i]).Some?
    ensures r.Some? ==> exists i :: 0 <= i < |evs| && react(evs[i]) == r && forall j :: 0 <= j < i ==> react(evs[j]).None?
  {
    if |evs| == 0 then None
    else if react(evs[0]).Some? then react(evs[0])
    else
      var r := FirstSettle(react, evs[1..]);
      assert forall i :: 1 <= i < |evs| ==> evs[1..][i - 1] == evs[i];
      r
  }

  /** Events after the settling one change nothing. */
  lemma {:induction false} FirstSettleAppend<E, T>(react: E -> Option<T>, evs: seq<E>, later: seq<E>)
    requires FirstSettle(react, evs).Some?
    ensures FirstSettle(react, evs + later) == FirstSettle(react, evs)
  {
    if react(evs[0]).None? {
      assert (evs + later)[1..] == evs[1..] + later;
      FirstSettleAppend(react, evs[1..], later);
    }
  }

  /** While nothing has settled, the next event's reaction decides. */
  lemma {:induction false} FirstSettleSnoc<E, T>(react: E -> Option<T>, evs: seq<E>, ev: E)
    requires FirstSettle(react, evs).None?
    ensures FirstSettle(react, evs + [ev]) == react(ev)
  {
    if |evs| > 0 {
      assert (evs + [ev])[1..] == evs[1..] + [ev];
      FirstSettleSnoc(react, evs[1..], ev);
    }
  }

  /** Running the handlers one event further: a settled prefix stays settled, an unsettled one takes the next reaction. */
  lemma FirstSettleStep<E, T>(react: E -> Option<T>, evs: seq<E>, n: nat)
    requires n < |evs|
    ensures FirstSettle(react, evs[..n]).Some? ==> FirstSettle(react, evs[..n + 1]) == FirstSettle(react, evs[..n])
    ensures FirstSettle(react, evs[..n]).None? ==> FirstSettle(react, evs[..n + 1]) == react(evs[n])
  {
    assert evs[..n + 1] == evs[..n] + [evs[n]];
    if FirstSettle(react, evs[..n]).Some? {
      FirstSettleAppend(react, evs[..n], [evs[n]]);
    } else {
      FirstSettleSnoc(react, evs[..n], evs[n]);
    }
  }

  /** An event sequence that ends with a timer whose handler always acts always settles. */
  lemma FirstSettleLast<E, T>(react: E -> Option<T>, evs: seq<E>, last: E)
    requires react(last).Some?
    ensures FirstSettle(react, evs + [last]).Some?
  {
    assert (evs + [last])[|evs|] == last;
  }

  /** With no event before it, the first event's reaction decides. */
  lemma FirstSettleHead<E, T>(react: E -> Option<T>, ev: E, evs: seq<E>)
    requires react(ev).Some?
    ensures FirstSettle(react, [ev] + evs) == react(ev)
  {
    assert ([ev] + evs)[0] == ev;
  }

  /** The favicon probe in which a load and an error both count as an answer: the time it came, if before the timer. */
  function ImageReaction(ev: ImageEvent): Option<Option<nat>> {
    match ev
    case ImageLoad(at) => Some(Some(at))
    case ImageError(at) => Some(Some(at))
    case ImageTimer => Some(None)
  }

  /** Every handler of that probe settles it, so the first event decides; the timer fires last. */
  function ImageAnswer(evs: seq<ImageEvent>): (r: Option<nat>)
    ensures r.Some? <==> evs != [] && !evs[0].ImageTimer?
    ensures r.Some? ==> r.value == evs[0].at
  {
    var all := evs + [ImageTimer];
    FirstSettleHead(ImageReaction, all[0], all[1..]);
    assert [all[0]] + all[1..] == all;
    FirstSettle(ImageReaction, all).value
  }
}
