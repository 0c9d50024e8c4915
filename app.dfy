/** The theory search of the main screen: a prompt, a loading flag, the last
    payload received and an error banner. A search is modelled as one atomic
    step from submission to the settled call: while it is pending the submit
    button is disabled, and with it the form's implicit submission. */
module AppComponent {
  import opened Wrappers
  import opened Types
  import opened JsText
  import opened GeminiService

  const THEORY_FAILURE_NOTICE := "Failed to load theory data. Please try again."

  /** The theory screen's state hooks. `theoryData` holds the parsed payload
      as received: nothing checks it against `VisualizationData`. */
  datatype TheoryView = TheoryView(theoryPrompt: string, isLoading: bool, theoryData: Option<Json>, error: Option<string>)

  /** What `setTheoryData(data)` leaves in the state: a parsed JSON `null` is
      the state's own empty value, anything else is held as received. */
  function Stored(data: Json): (s: Option<Json>)
    ensures s.None? <==> data.JNull?
    ensures s.Some? ==> s.value == data
  {
    if data.JNull? then None else Some(data)
  }

  /** JavaScript truthiness of a parsed value: `false`, `0` and `""` are
      falsy like `null`; every array and object is truthy. */
  predicate Truthy(j: Json) {
    match j
    case JNull => false
    case JBool(b) => b
    case JNumber(n) => n != 0.0
    case JString(s) => s != ""
    case _ => true
  }

  /** The screen's `theoryData ? … : …`: a payload is drawn only when the
      state holds a truthy value. */
  predicate PayloadShown(v: TheoryView) {
    v.theoryData.Some? && Truthy(v.theoryData.value)
  }

  /** `handleTheorySearch`, with `response` standing for how the SDK call
      settled and `parse` for `JSON.parse`. */
  function TheorySearch(v: TheoryView, response: Outcome<TextResponse>, parse: string -> Option<Json>): (r: TheoryView)
    // a blank prompt changes nothing and calls nothing
    ensures Blank(v.theoryPrompt) ==> r == v
    // otherwise the prompt stays, loading is over, and either the new payload
    // replaces the old one with no error shown (a `null` payload empties the
    // state), or the old payload stays under the error banner
    ensures !Blank(v.theoryPrompt) ==>
      var call := GenerateTheoryData(response, parse);
      r.theoryPrompt == v.theoryPrompt && !r.isLoading
      && (call.Success? ==> r.theoryData == Stored(call.value) && r.error == None)
      && (call.Failure? ==> r.theoryData == v.theoryData && r.error == Some(THEORY_FAILURE_NOTICE))
  {
    if Blank(v.theoryPrompt) then v
    else match GenerateTheoryData(response, parse)
      case Success(data) => v.(isLoading := false, theoryData := Stored(data), error := None)
      case Failure(_) => v.(isLoading := false, error := Some(THEORY_FAILURE_NOTICE))
  }

  /** The submit button's rule: disabled while loading. */
  predicate SubmitDisabled(v: TheoryView) {
    v.isLoading
  }

  /** After a search from an idle screen the button is enabled again, the
      banner is shown exactly when the call failed, and after a successful
      call a payload is drawn exactly when the parsed value is truthy. */
  lemma SearchSettles(v: TheoryView, response: Outcome<TextResponse>, parse: string -> Option<Json>)
    requires !v.isLoading && !Blank(v.theoryPrompt)
    ensures var r := TheorySearch(v, response, parse);
      var call := GenerateTheoryData(response, parse);
      !SubmitDisabled(r)
      && (r.error.Some? <==> call.Failure?)
      && (call.Success? ==> (PayloadShown(r) <==> Truthy(call.value)))
  {
  }

  /** Whatever the search, the submit button is left disabled only when it
      already was and the search was ignored for a blank prompt. */
  lemma SearchReenablesSubmit(v: TheoryView, response: Outcome<TextResponse>, parse: string -> Option<Json>)
    ensures SubmitDisabled(TheorySearch(v, response, parse)) <==> SubmitDisabled(v) && Blank(v.theoryPrompt)
  {
  }

  /** An answer that parses to `null` clears the screen back to its initial
      empty state, with no banner, even over an earlier payload. */
  lemma NullPayloadClearsScreen(v: TheoryView, text: string, parse: string -> Option<Json>)
    requires !Blank(v.theoryPrompt) && text != "" && parse(text) == Some(JNull)
    ensures var r := TheorySearch(v, Returned(TextResponse(Some(text))), parse);
      r.theoryData == None && r.error == None && !PayloadShown(r)
  {
  }

  /** A failed search after a successful one leaves the earlier payload on
      screen beneath the error banner; a successful retry then removes the
      banner and shows the new payload. */
  lemma StalePayloadUnderBanner(v: TheoryView, ok1: Outcome<TextResponse>, bad: Outcome<TextResponse>,
                                ok2: Outcome<TextResponse>, parse: string -> Option<Json>)
    requires !Blank(v.theoryPrompt)
    requires GenerateTheoryData(ok1, parse).Success? && GenerateTheoryData(bad, parse).Failure?
    requires GenerateTheoryData(ok2, parse).Success?
    ensures var v1 := TheorySearch(v, ok1, parse);
      var v2 := TheorySearch(v1, bad, parse);
      var v3 := TheorySearch(v2, ok2, parse);
      v2.theoryData == Stored(GenerateTheoryData(ok1, parse).value) && v2.error == Some(THEORY_FAILURE_NOTICE)
      && v3.theoryData == Stored(GenerateTheoryData(ok2, parse).value) && v3.error == None
  {
    var v1 := TheorySearch(v, ok1, parse);
    assert v1.theoryPrompt == v.theoryPrompt;
    var v2 := TheorySearch(v1, bad, parse);
    assert v2.theoryPrompt == v.theoryPrompt;
  }

  /** Whatever notes the payload lists as a JSON array of strings are the
      notes the screen passes to the instruments, in the payload's order:
      searching "C Major Scale" against an oracle answering with the notes
      C D E F G A B shows exactly those seven, in that order. */
  lemma PayloadNotesShownInOrder(v: TheoryView, text: string, parse: string -> Option<Json>,
                                 fields: map<string, Json>, notes: seq<string>)
    requires !Blank(v.theoryPrompt) && text != ""
    requires parse(text) == Some(JObject(fields))
    requires "notes" in fields && fields["notes"] == JArray(JStrings(notes))
    ensures var r := TheorySearch(v, Returned(TextResponse(Some(text))), parse);
      r.error == None && r.theoryData == Some(JObject(fields))
      && StringsField(r.theoryData.value.fields, "notes") == Some(notes)
  {
    StringItemsRoundTrip(notes);
  }

  /** The theory screen. */
  class App {
    var theoryPrompt: string
    var isLoading: bool
    var theoryData: Option<Json>
    var error: Option<string>

    constructor ()
      ensures View() == TheoryView("", false, None, None)
    {
      theoryPrompt := "";
      isLoading := false;
      theoryData := None;
      error := None;
    }

    function View(): TheoryView
      reads this
    {
      TheoryView(theoryPrompt, isLoading, theoryData, error)
    }

    /** The prompt input's `onChange`. */
    method SetTheoryPrompt(text: string)
      modifies this
      ensures View() == old(View()).(theoryPrompt := text)
    {
      theoryPrompt := text;
    }

    method HandleTheorySearch(response: Outcome<TextResponse>, parse: string -> Option<Json>)
      modifies this
      ensures View() == TheorySearch(old(View()), response, parse)
    {
      if Blank(theoryPrompt) {
        return;
      }
      isLoading := true;
      error := None;
      var result := GenerateTheoryData(response, parse);
      match result {
        case Success(data) =>
          theoryData := Stored(data);
        case Failure(_) =>
          error := Some(THEORY_FAILURE_NOTICE);
      }
      isLoading := false;
    }
  }
}
