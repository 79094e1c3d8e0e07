/**
 * The status page: a health check classifies the service as operational,
 * degraded or in outage, and the status selects texts and colours.
 */
module StatusPage {
  import opened Wrappers

  /** What fetching the health endpoint did: an answer with or without `ok`, or a throw. */
  datatype HealthOutcome = Answered(ok: bool) | Threw

  /** The page state; `lastChecked` counts completed checks, standing for the time of the last one. */
  datatype Page = Page(status: string, lastChecked: Option<nat>)

  const Initial := Page("loading", None)

  /** `checkStatus`: the status follows the outcome, and the check time is set whatever happened. */
  function CheckStatus(page: Page, outcome: HealthOutcome, now: nat): (next: Page)
    ensures next.status == "operational" <==> outcome == Answered(true)
    ensures next.status == "degraded" <==> outcome == Answered(false)
    ensures next.status == "outage" <==> outcome == Threw
    ensures next.lastChecked == Some(now)
  {
    var status := match outcome
      case Answered(true) => "operational"
      case Answered(false) => "degraded"
      case Threw => "outage";
    Page(status, Some(now))
  }

  /** `getStatusColor`. */
  function StatusColor(status: string): (c: string)
    ensures status == "operational" <==> c == "text-green-500"
    ensures status == "degraded" <==> c == "text-yellow-500"
    ensures status == "outage" <==> c == "text-red-500"
    ensures status !in {"operational", "degraded", "outage"} <==> c == "text-gray-500"
  {
    match status
    case "operational" => "text-green-500"
    case "degraded" => "text-yellow-500"
    case "outage" => "text-red-500"
    case _ => "text-gray-500"
  }

  /** `getStatusText`. */
  function StatusText(status: string): (t: string)
    ensures status == "operational" <==> t == "All Systems Operational"
    ensures status == "degraded" <==> t == "Degraded Performance"
    ensures status == "outage" <==> t == "Service Outage"
    ensures status !in {"operational", "degraded", "outage"} <==> t == "Checking Status..."
  {
    match status
    case "operational" => "All Systems Operational"
    case "degraded" => "Degraded Performance"
    case "outage" => "Service Outage"
    case _ => "Checking Status..."
  }

  /** The component indicator: only operational and degraded escape the red "Outage", "loading" included. */
  function Indicator(status: string): (r: (string, string))
    ensures status == "operational" <==> r == ("bg-green-500", "Operational")
    ensures status == "degraded" <==> r == ("bg-yellow-500", "Degraded")
    ensures status != "operational" && status != "degraded" <==> r == ("bg-red-500", "Outage")
  {
    if status == "operational" then ("bg-green-500", "Operational")
    else if status == "degraded" then ("bg-yellow-500", "Degraded")
    else ("bg-red-500", "Outage")
  }

  /** Before the first check completes, the text waits while the indicator already shows an outage. */
  lemma LoadingShowsOutageIndicator()
    ensures StatusText(Initial.status) == "Checking Status..."
    ensures Indicator(Initial.status) == ("bg-red-500", "Outage")
  {
  }

  /** After any check the page leaves "loading" and the status text is one of the three known ones. */
  lemma CheckedStatusKnown(page: Page, outcome: HealthOutcome, now: nat)
    ensures StatusText(CheckStatus(page, outcome, now).status) != "Checking Status..."
  {
  }
}
