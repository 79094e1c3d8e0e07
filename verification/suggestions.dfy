/**
 * The server-suggestion form: the comma-separated URL field is split into
 * a clean list on submit, field edits update one field, and the submit
 * status moves from submitting to success or error.
 */
module Suggestions {
  import opened Wrappers
  import opened Text
  import Seqs

  datatype Form = Form(name: string, urls: string, category: string, description: string)

  const EmptyForm := Form("", "", "FTP Servers", "")

  /** The submit status; `None` is the idle state. */
  datatype Status = Submitting | Succeeded | Errored

  datatype State = State(form: Form, submitStatus: Option<Status>, showForm: bool)

  /** What the POST came back with: a reply whose `success` flag was read, or a thrown error. */
  datatype Reply = Replied(success: bool) | Threw

  function TrimAll(parts: seq<string>): (r: seq<string>)
    ensures |r| == |parts| && forall i :: 0 <= i < |parts| ==> r[i] == Trim(parts[i])
  {
    seq(|parts|, i requires 0 <= i < |parts| => Trim(parts[i]))
  }

  function NonEmpty(): string -> bool {
    (u: string) => u != ""
  }

  /** `urls.split(',').map(url => url.trim()).filter(url => url)`. */
  function ParseUrls(urls: string): (r: seq<string>)
    ensures forall u :: u in r ==> u != "" && ',' !in u && !IsSpace(u[0]) && !IsSpace(u[|u| - 1])
    ensures forall u :: u in r ==> exists part :: part in Split(urls, ',') && u == Trim(part)
    ensures forall part :: part in Split(urls, ',') && Trim(part) != "" ==> Trim(part) in r
    ensures Seqs.Subsequence(r, TrimAll(Split(urls, ',')))
    ensures |r| == Seqs.Count(TrimAll(Split(urls, ',')), NonEmpty())
  {
    var parts := Split(urls, ',');
    CleanParts(parts);
    Seqs.Filter(TrimAll(parts), NonEmpty())
  }

  /** What trimming the comma-free pieces and dropping the empty ones keeps: each non-empty trimmed piece, in order. */
  lemma CleanParts(parts: seq<string>)
    requires forall i :: 0 <= i < |parts| ==> ',' !in parts[i]
    ensures var r := Seqs.Filter(TrimAll(parts), NonEmpty());
      && (forall u :: u in r ==> u != "" && ',' !in u && !IsSpace(u[0]) && !IsSpace(u[|u| - 1]))
      && (forall u :: u in r ==> exists part :: part in parts && u == Trim(part))
      && (forall part :: part in parts && Trim(part) != "" ==> Trim(part) in r)
      && Seqs.Subsequence(r, TrimAll(parts))
      && |r| == Seqs.Count(TrimAll(parts), NonEmpty())
  {
    var trimmed := TrimAll(parts);
    Seqs.FilterSubsequence(trimmed, NonEmpty());
    forall u | u in trimmed ensures exists part :: part in parts && u == Trim(part) {
      var i :| 0 <= i < |trimmed| && trimmed[i] == u;
      assert parts[i] in parts;
    }
    forall part | part in parts && Trim(part) != "" ensures Trim(part) in trimmed {
      var i :| 0 <= i < |parts| && parts[i] == part;
      assert trimmed[i] == Trim(part);
    }
  }

  /** Clean URLs joined with commas come back exactly, in order. */
  lemma ParseJoined(urls: seq<string>)
    requires |urls| >= 1
    requires forall i :: 0 <= i < |urls| ==> urls[i] != "" && ',' !in urls[i] && !IsSpace(urls[i][0]) && !IsSpace(urls[i][|urls[i]| - 1])
    ensures ParseUrls(Join(urls, ',')) == urls
  {
    SplitJoin(urls, ',');
    forall i | 0 <= i < |urls| ensures Trim(urls[i]) == urls[i] {
      TrimUntouched(urls[i]);
    }
    assert TrimAll(urls) == urls;
    Seqs.FilterAll(urls, NonEmpty());
  }

  /** `handleInputChange`: the named field takes the value; a name that is no field changes none of them. */
  function HandleInputChange(form: Form, name: string, value: string): (r: Form)
    ensures name == "name" ==> r == form.(name := value)
    ensures name == "urls" ==> r == form.(urls := value)
    ensures name == "category" ==> r == form.(category := value)
    ensures name == "description" ==> r == form.(description := value)
    ensures name !in {"name", "urls", "category", "description"} ==> r == form
  {
    match name
    case "name" => form.(name := value)
    case "urls" => form.(urls := value)
    case "category" => form.(category := value)
    case "description" => form.(description := value)
    case _ => form
  }

  /** The first step of `handleFormSubmit`. */
  function BeginSubmit(state: State): (r: State)
    ensures r.submitStatus == Some(Submitting) && r.form == state.form && r.showForm == state.showForm
  {
    state.(submitStatus := Some(Submitting))
  }

  /** The body posted: the form with `urls` parsed. */
  function SubmittedUrls(state: State): (r: seq<string>)
    ensures r == ParseUrls(state.form.urls)
    ensures forall u :: u in r ==> u != "" && ',' !in u
  {
    ParseUrls(state.form.urls)
  }

  /** The reply: success resets the form, anything else marks an error and keeps what was typed. */
  function FinishSubmit(state: State, reply: Reply): (r: State)
    ensures reply == Replied(true) <==> r.submitStatus == Some(Succeeded)
    ensures reply == Replied(true) ==> r.form == EmptyForm
    ensures reply != Replied(true) ==> r.submitStatus == Some(Errored) && r.form == state.form
    ensures r.showForm == state.showForm
  {
    if reply == Replied(true) then state.(submitStatus := Some(Succeeded), form := EmptyForm)
    else state.(submitStatus := Some(Errored))
  }

  /** Three seconds after a success the status goes back to idle and the form closes. */
  function AfterSuccessTimeout(state: State): (r: State)
    ensures r.submitStatus.None? && !r.showForm && r.form == state.form
  {
    state.(submitStatus := None, showForm := false)
  }
}
