/**
 * The simulated test endpoint: it checks that the body carries an array of
 * URLs and answers one made-up result per URL. The random draws are
 * parameters: `r1(i)` and `r2(i)` stand for the two `Math.random()` values
 * of the i-th URL, each in [0, 1).
 */
module ApiTest {
  import opened Wrappers

  /** The parsed body: its `urls` field may be missing, hold an array, or hold something else. */
  datatype Urls = Missing | UrlArray(items: seq<string>) | NotArray

  datatype UrlResult = UrlResult(url: string, status: string, responseTime: int)

  datatype Response =
    | Ok(results: seq<UrlResult>)
    | Error(httpStatus: nat, error: string)

  /** A draw of `Math.random()`: a rational in [0, 1), as numerator over denominator. */
  datatype Draw = Draw(num: nat, den: nat)

  predicate ValidDraw(d: Draw) {
    0 < d.den && d.num < d.den
  }

  type UnitDraw = d: Draw | ValidDraw(d) witness Draw(0, 1)

  /** `Math.floor(d * 1000) + 50`. */
  function ResponseTime(d: UnitDraw): (t: int)
    ensures 50 <= t <= 1049
  {
    (d.num * 1000) / d.den + 50
  }

  /** `d > 0.3`. */
  function StatusOf(d: UnitDraw): (s: string)
    ensures s == "Online" <==> 10 * d.num > 3 * d.den
    ensures s == "Online" || s == "Offline"
  {
    if 10 * d.num > 3 * d.den then "Online" else "Offline"
  }

  /**
   * `POST`: a body that did not parse gives 500; a missing or non-array
   * `urls` gives 400; otherwise one result per URL, in order.
   */
  function Post(body: Result<Urls, string>, r1: nat -> UnitDraw, r2: nat -> UnitDraw): (r: Response)
    ensures body.Failure? ==> r == Error(500, "Internal server error")
    ensures body.Success? && !body.value.UrlArray? ==> r == Error(400, "Invalid request. Please provide an array of URLs.")
    ensures body.Success? && body.value.UrlArray? ==>
      && r.Ok?
      && |r.results| == |body.value.items|
      && forall i :: 0 <= i < |r.results| ==>
        && r.results[i].url == body.value.items[i]
        && (r.results[i].status == "Online" || r.results[i].status == "Offline")
        && 50 <= r.results[i].responseTime <= 1049
  {
    match body
    case Failure(_) => Error(500, "Internal server error")
    case Success(Missing) => Error(400, "Invalid request. Please provide an array of URLs.")
    case Success(NotArray) => Error(400, "Invalid request. Please provide an array of URLs.")
    case Success(UrlArray(urls)) => Ok(ResultsFor(urls, r1, r2))
  }

  /** `urls.map(...)`: the i-th URL's result is drawn from the i-th pair of random values. */
  function ResultsFor(urls: seq<string>, r1: nat -> UnitDraw, r2: nat -> UnitDraw): (r: seq<UrlResult>)
    ensures |r| == |urls|
    ensures forall i :: 0 <= i < |urls| ==> r[i] == UrlResult(urls[i], StatusOf(r1(i)), ResponseTime(r2(i)))
  {
    seq(|urls|, i requires 0 <= i < |urls| => UrlResult(urls[i], StatusOf(r1(i)), ResponseTime(r2(i))))
  }

  /** Both ends of the response-time range are reachable. */
  lemma ResponseTimeRange()
    ensures ResponseTime(Draw(0, 1)) == 50
    ensures ResponseTime(Draw(999, 1000)) == 1049
  {
  }
}
