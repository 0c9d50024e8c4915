/** The records the components exchange with the service layer. */
module Types {
  import opened Wrappers

  /** Who wrote a chat entry; the remote side calls the assistant `model`. */
  datatype Role = User | Model

  /** One transcript entry. The source also stores a clock-derived `id` and
      `timestamp`; they take no part in any decision and are not modelled. */
  datatype ChatMessage = ChatMessage(role: Role, text: string)

  datatype TheoryKind = Scale | Chord | Interval

  datatype Instrument = Piano | Guitar

  /** The shape the theory view expects; nothing enforces it at run time. */
  datatype VisualizationData = VisualizationData(
    title: string,
    description: string,
    kind: TheoryKind,
    root: string,
    notes: seq<string>,
    intervals: seq<string>,
    instrumentPreference: Option<Instrument>)

  /** The three quality tiers of the image generator. */
  datatype ImageSize = Size1K | Size2K | Size4K

  datatype ImageConfig = ImageConfig(size: ImageSize)

  /** A value `JSON.parse` can produce. */
  datatype Json =
    | JNull
    | JBool(b: bool)
    | JNumber(n: real)
    | JString(s: string)
    | JArray(items: seq<Json>)
    | JObject(fields: map<string, Json>)

  /** The strings of a JSON array whose every item is a string. */
  function StringItems(items: seq<Json>): (r: Option<seq<string>>)
    ensures r.Some? <==> forall i :: 0 <= i < |items| ==> items[i].JString?
    ensures r.Some? ==> |r.value| == |items| && forall i :: 0 <= i < |items| ==> items[i] == JString(r.value[i])
  {
    if items == [] then Some([])
    else if !items[0].JString? then None
    else match StringItems(items[1..])
      case None => None
      case Some(rest) => Some([items[0].s] + rest)
  }

  /** A list of strings as a JSON array. */
  function JStrings(xs: seq<string>): (items: seq<Json>)
    ensures |items| == |xs| && forall i :: 0 <= i < |xs| ==> items[i] == JString(xs[i])
  {
    if xs == [] then [] else [JString(xs[0])] + JStrings(xs[1..])
  }

  /** Reading the strings back out of such an array gives the list again. */
  lemma {:induction false} StringItemsRoundTrip(xs: seq<string>)
    ensures StringItems(JStrings(xs)) == Some(xs)
  {
    if xs != [] {
      StringItemsRoundTrip(xs[1..]);
      assert JStrings(xs)[1..] == JStrings(xs[1..]);
      assert [xs[0]] + xs[1..] == xs;
    }
  }

  function StringField(fields: map<string, Json>, key: string): Option<string> {
    if key in fields && fields[key].JString? then Some(fields[key].s) else None
  }

  function StringsField(fields: map<string, Json>, key: string): Option<seq<string>> {
    if key in fields && fields[key].JArray? then StringItems(fields[key].items) else None
  }

  function KindOf(name: string): Option<TheoryKind> {
    match name
    case "scale" => Some(Scale)
    case "chord" => Some(Chord)
    case "interval" => Some(Interval)
    case _ => None
  }

  function InstrumentOf(name: string): Option<Instrument> {
    match name
    case "piano" => Some(Piano)
    case "guitar" => Some(Guitar)
    case _ => None
  }

  /** Reads a parsed payload as a `VisualizationData`, which is what the
      source's unchecked `as VisualizationData` cast takes for granted: the six
      required fields with their types, `type` among its three values, and an
      optional `instrumentPreference` among its two. */
  function AsVisualizationData(j: Json): (r: Option<VisualizationData>)
    ensures r.Some? ==> j.JObject? && "notes" in j.fields && "intervals" in j.fields
    ensures r.Some? ==> j.fields["notes"] == JArray(seq(|r.value.notes|, i requires 0 <= i < |r.value.notes| => JString(r.value.notes[i])))
    ensures r.Some? ==> j.fields["intervals"] == JArray(seq(|r.value.intervals|, i requires 0 <= i < |r.value.intervals| => JString(r.value.intervals[i])))
  {
    if !j.JObject? then None
    else
      var f := j.fields;
      var instrument :=
        if "instrumentPreference" !in f then Some(None)
        else if f["instrumentPreference"].JString? && InstrumentOf(f["instrumentPreference"].s).Some?
        then Some(InstrumentOf(f["instrumentPreference"].s))
        else None;
      if StringField(f, "title").None? || StringField(f, "description").None?
        || StringField(f, "type").None? || KindOf(StringField(f, "type").value).None?
        || StringField(f, "root").None? || StringsField(f, "notes").None?
        || StringsField(f, "intervals").None? || instrument.None?
      then None
      else
        var notes := StringsField(f, "notes").value;
        var intervals := StringsField(f, "intervals").value;
        assert f["notes"].items == seq(|notes|, i requires 0 <= i < |notes| => JString(notes[i]));
        assert f["intervals"].items == seq(|intervals|, i requires 0 <= i < |intervals| => JString(intervals[i]));
        Some(VisualizationData(
          StringField(f, "title").value, StringField(f, "description").value,
          KindOf(StringField(f, "type").value).value, StringField(f, "root").value,
          notes, intervals, instrument.value))
  }
}
