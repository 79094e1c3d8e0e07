/**
 * The error panel: each reported error becomes a record that is appended
 * to a list keeping the ten most recent; the type selects a description
 * and an icon colour.
 */
module ErrorLog {
  import opened Wrappers

  /** What a caller passes to `addError`: a plain string or an object with optional fields. */
  datatype Reported = Plain(text: string) | Object(message: Option<string>, kind: Option<string>, url: Option<string>)

  /** The record's message is the reported message, or else the reported value itself. */
  datatype Message = MessageText(text: string) | WholeValue(value: Reported)

  /** The record; its id and ISO timestamp come from the clock and are left out. */
  datatype ErrorRecord = ErrorRecord(message: Message, kind: string, url: string)

  const MaxErrors: nat := 10

  /** `x || fallback` on an optional string: missing and empty both fall back. */
  function OrElse(x: Option<string>, fallback: string): (r: string)
    ensures x.Some? && x.value != "" ==> r == x.value
    ensures x.None? || x.value == "" ==> r == fallback
  {
    if x.Some? && x.value != "" then x.value else fallback
  }

  function NewError(error: Reported): (e: ErrorRecord)
    ensures error.Plain? ==> e == ErrorRecord(MessageText(error.text), "unknown", "Unknown")
    ensures error.Object? ==> e.kind == OrElse(error.kind, "unknown") && e.url == OrElse(error.url, "Unknown")
    ensures error.Object? && error.message.Some? && error.message.value != "" ==> e.message == MessageText(error.message.value)
    ensures error.Object? && (error.message.None? || error.message.value == "") ==> e.message == WholeValue(error)
    ensures e.kind != "" && e.url != ""
  {
    match error
    case Plain(text) => ErrorRecord(MessageText(text), "unknown", "Unknown")
    case Object(message, kind, url) =>
      var m := if message.Some? && message.value != "" then MessageText(message.value) else WholeValue(error);
      ErrorRecord(m, OrElse(kind, "unknown"), OrElse(url, "Unknown"))
  }

  /** `[...prev, newError].slice(-10)`. */
  function AddError(errors: seq<ErrorRecord>, error: Reported): (r: seq<ErrorRecord>)
    ensures |r| == if |errors| < MaxErrors then |errors| + 1 else MaxErrors
    ensures r[|r| - 1] == NewError(error)
    ensures r[..|r| - 1] == errors[|errors| + 1 - |r|..]
  {
    var all := errors + [NewError(error)];
    var r := if |all| <= MaxErrors then all else all[|all| - MaxErrors..];
    assert r[..|r| - 1] == errors[|errors| + 1 - |r|..];
    r
  }

  /** However many errors arrive, the list holds at most ten, the newest last. */
  lemma {:induction false} AddManyBounded(errors: seq<ErrorRecord>, reported: seq<Reported>)
    requires |errors| <= MaxErrors
    ensures |AddAll(errors, reported)| <= MaxErrors
    ensures reported != [] ==> AddAll(errors, reported)[|AddAll(errors, reported)| - 1] == NewError(reported[|reported| - 1])
  {
    if |reported| > 0 {
      AddManyBounded(errors, reported[..|reported| - 1]);
    }
  }

  function AddAll(errors: seq<ErrorRecord>, reported: seq<Reported>): seq<ErrorRecord> {
    if |reported| == 0 then errors
    else AddError(AddAll(errors, reported[..|reported| - 1]), reported[|reported| - 1])
  }

  /** `clearErrors`. */
  function ClearErrors(): (r: seq<ErrorRecord>)
    ensures |r| == 0
  {
    []
  }

  /** `getErrorDescription`: one text per known type and a default. */
  function ErrorDescription(kind: string): (d: string)
    ensures kind == "timeout" <==> d == "Connection timed out - server may be slow or unreachable"
    ensures kind == "network" <==> d == "Network error - check your internet connection"
    ensures kind == "dns" <==> d == "DNS resolution failed - domain name may be incorrect"
    ensures kind !in {"timeout", "network", "dns"} <==> d == "An unknown error occurred"
  {
    match kind
    case "timeout" => "Connection timed out - server may be slow or unreachable"
    case "network" => "Network error - check your internet connection"
    case "dns" => "DNS resolution failed - domain name may be incorrect"
    case _ => "An unknown error occurred"
  }

  /** `getErrorIcon`, by its colour class. */
  function ErrorIconColor(kind: string): (c: string)
    ensures kind == "timeout" <==> c == "text-yellow-500"
    ensures kind == "network" <==> c == "text-red-500"
    ensures kind == "dns" <==> c == "text-orange-500"
    ensures kind !in {"timeout", "network", "dns"} <==> c == "text-gray-500"
  {
    match kind
    case "timeout" => "text-yellow-500"
    case "network" => "text-red-500"
    case "dns" => "text-orange-500"
    case _ => "text-gray-500"
  }
}
