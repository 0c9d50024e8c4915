/** The service layer: three adapters over the remote generative model.
    Every call into the SDK is an oracle whose settled outcome is a parameter;
    the model decides only what the adapters do with that outcome. */
module GeminiService {
  import opened Wrappers
  import opened Types

  /** How an SDK call settled: it returned a value or it threw. */
  datatype Outcome<T> = Returned(value: T) | Threw(reason: string)

  /** The errors the service functions reject with. A thrown SDK error is
      rethrown unchanged; the other three are raised by the service itself. */
  datatype ServiceError =
    | RequestFailed(reason: string)
    | NoDataReturned
    | InvalidJson
    | NoImageGenerated
  {
    function Message(): string {
      match this
      case RequestFailed(reason) => reason
      case NoDataReturned => "No data returned"
      case InvalidJson => "JSON.parse: unexpected input"
      case NoImageGenerated => "No image generated"
    }
  }

  // ---------------------------------------------------------------------
  // Theory data
  // ---------------------------------------------------------------------

  /** The part of a `generateContent` response the theory adapter reads:
      its `text`, which may be missing. */
  datatype TextResponse = TextResponse(text: Option<string>)

  /** `generateTheoryData`: a thrown call is rethrown; a missing or empty text
      fails with "No data returned"; otherwise the text is parsed (`parse`
      stands for `JSON.parse`, `None` for a syntax error) and the parsed value
      is returned as it is, whatever its shape. */
  function GenerateTheoryData(response: Outcome<TextResponse>, parse: string -> Option<Json>): (r: Result<Json, ServiceError>)
    ensures response.Threw? ==> r == Failure(RequestFailed(response.reason))
    ensures response.Returned? && (response.value.text == None || response.value.text == Some(""))
      ==> r == Failure(NoDataReturned)
    ensures r.Success? <==>
      response.Returned? && response.value.text.Some? && response.value.text.value != ""
      && parse(response.value.text.value).Some?
    ensures r.Success? ==> Some(r.value) == parse(response.value.text.value)
  {
    match response
    case Threw(reason) => Failure(RequestFailed(reason))
    case Returned(TextResponse(text)) =>
      if text.None? || text.value == "" then Failure(NoDataReturned)
      else match parse(text.value)
        case None => Failure(InvalidJson)
        case Some(value) => Success(value)
  }

  /** Nothing checks the payload against the declared schema: a parsed value
      that is not an object at all is handed back as the result. */
  lemma NoFieldValidation(text: string, parse: string -> Option<Json>)
    requires text != "" && parse(text) == Some(JNumber(42.0))
    ensures GenerateTheoryData(Returned(TextResponse(Some(text))), parse) == Success(JNumber(42.0))
    ensures AsVisualizationData(JNumber(42.0)) == None
  {
  }

  /** Nor does anything check that `notes` and `intervals` have the same
      length: any payload with the right fields comes back as it is and reads
      as a `VisualizationData` holding both lists unchanged, whatever their
      lengths (two notes against one interval included). */
  lemma NoLengthValidation(text: string, parse: string -> Option<Json>, fields: map<string, Json>,
                           title: string, description: string, kind: string, root: string,
                           notes: seq<string>, intervals: seq<string>)
    requires text != "" && parse(text) == Some(JObject(fields))
    requires "title" in fields && fields["title"] == JString(title)
    requires "description" in fields && fields["description"] == JString(description)
    requires "type" in fields && fields["type"] == JString(kind) && KindOf(kind).Some?
    requires "root" in fields && fields["root"] == JString(root)
    requires "notes" in fields && fields["notes"] == JArray(JStrings(notes))
    requires "intervals" in fields && fields["intervals"] == JArray(JStrings(intervals))
    requires "instrumentPreference" !in fields
    ensures var r := GenerateTheoryData(Returned(TextResponse(Some(text))), parse);
      r == Success(JObject(fields))
      && AsVisualizationData(r.value) == Some(VisualizationData(title, description, KindOf(kind).value, root, notes, intervals, None))
  {
    StringItemsRoundTrip(notes);
    StringItemsRoundTrip(intervals);
  }

  // ---------------------------------------------------------------------
  // Images
  // ---------------------------------------------------------------------

  const IMAGE_MODEL := "gemini-3-pro-image-preview"
  const SQUARE := "1:1"
  const PNG_DATA_URI_PREFIX := "data:image/png;base64,"

  /** The request `generateMusicImage` sends: the prompt as the only part, the
      caller's size, and a square aspect ratio. */
  datatype ImageRequest = ImageRequest(model: string, parts: seq<string>, imageSize: ImageSize, aspectRatio: string)

  datatype Blob = Blob(data: Option<string>, mimeType: Option<string>)
  datatype Part = Part(text: Option<string>, inlineData: Option<Blob>)
  datatype Content = Content(parts: Option<seq<Part>>)
  datatype Candidate = Candidate(content: Option<Content>)
  datatype ImageResponse = ImageResponse(candidates: Option<seq<Candidate>>)

  /** `response.candidates?.[0]?.content?.parts || []`: the parts of the first
      candidate, or no parts when anything along the way is missing. */
  function ResponseParts(response: ImageResponse): (parts: seq<Part>)
    // the first candidate's parts, when it has content with parts
    ensures (response.candidates.Some? && |response.candidates.value| > 0
             && response.candidates.value[0].content.Some?
             && response.candidates.value[0].content.value.parts.Some?) ==>
      parts == response.candidates.value[0].content.value.parts.value
    // no parts when the candidates, the first candidate, its content or the
    // content's parts are missing
    ensures (response.candidates.None? || response.candidates == Some([])
             || response.candidates.value[0].content.None?
             || response.candidates.value[0].content.value.parts.None?) ==>
      parts == []
  {
    match response.candidates
    case None => []
    case Some(candidates) =>
      if candidates == [] then []
      else match candidates[0].content
        case None => []
        case Some(content) => content.parts.GetOr([])
  }

  /** The template `data:image/png;base64,${data}`; a missing `data` is
      rendered by the template as the word "undefined". The MIME type the
      oracle declares is not consulted. */
  function DataUri(blob: Blob): (uri: string)
    ensures |uri| >= |PNG_DATA_URI_PREFIX| && uri[..|PNG_DATA_URI_PREFIX|] == PNG_DATA_URI_PREFIX
    ensures blob.data.Some? ==> uri[|PNG_DATA_URI_PREFIX|..] == blob.data.value
    ensures blob.data.None? ==> uri == PNG_DATA_URI_PREFIX + "undefined"
  {
    PNG_DATA_URI_PREFIX + match blob.data
      case Some(data) => data
      case None => "undefined"
  }

  /** The index of the first part carrying inline data, or `|parts|` when
      no part does. */
  function FirstInline(parts: seq<Part>): (k: nat)
    ensures k <= |parts|
    ensures forall j :: 0 <= j < k ==> parts[j].inlineData.None?
    ensures k < |parts| ==> parts[k].inlineData.Some?
  {
    if parts == [] then 0
    else if parts[0].inlineData.Some? then 0
    else 1 + FirstInline(parts[1..])
  }

  /** What `generateMusicImage` settles with, given how the SDK call settled:
      the data URI of the first inline part, "No image generated" when there is
      none, the SDK's own error when it threw. */
  function ImageOutcome(response: Outcome<ImageResponse>): (r: Result<string, ServiceError>)
    ensures response.Threw? ==> r == Failure(RequestFailed(response.reason))
    ensures response.Returned? ==>
      var parts := ResponseParts(response.value);
      (r.Failure? <==> forall j :: 0 <= j < |parts| ==> parts[j].inlineData.None?)
      && (r.Failure? ==> r.error == NoImageGenerated)
    // a success is the data URI of the first part that carries inline data
    ensures response.Returned? && r.Success? ==>
      var parts := ResponseParts(response.value);
      exists k :: 0 <= k < |parts| && parts[k].inlineData.Some?
        && (forall j :: 0 <= j < k ==> parts[j].inlineData.None?)
        && r.value == DataUri(parts[k].inlineData.value)
    ensures r.Success? ==> |r.value| >= |PNG_DATA_URI_PREFIX| && r.value[..|PNG_DATA_URI_PREFIX|] == PNG_DATA_URI_PREFIX
  {
    match response
    case Threw(reason) => Failure(RequestFailed(reason))
    case Returned(value) =>
      var parts := ResponseParts(value);
      var k := FirstInline(parts);
      if k < |parts| then Success(DataUri(parts[k].inlineData.value)) else Failure(NoImageGenerated)
  }

  /** `generateMusicImage`: builds the request, then scans the returned parts
      in order and returns at the first one with inline data. */
  method GenerateMusicImage(prompt: string, size: ImageSize, response: Outcome<ImageResponse>)
    returns (request: ImageRequest, r: Result<string, ServiceError>)
    ensures request == ImageRequest(IMAGE_MODEL, [prompt], size, SQUARE)
    ensures r == ImageOutcome(response)
  {
    request := ImageRequest(IMAGE_MODEL, [prompt], size, SQUARE);
    if response.Threw? {
      return request, Failure(RequestFailed(response.reason));
    }
    var parts := ResponseParts(response.value);
    for i := 0 to |parts|
      invariant forall j :: 0 <= j < i ==> parts[j].inlineData.None?
    {
      if parts[i].inlineData.Some? {
        assert FirstInline(parts) == i;
        return request, Success(DataUri(parts[i].inlineData.value));
      }
    }
    r := Failure(NoImageGenerated);
  }

  /** Later parts are ignored: once a part with inline data is found, what
      follows it makes no difference. */
  lemma {:induction false} LaterPartsIgnored(parts: seq<Part>, rest: seq<Part>)
    requires exists j :: 0 <= j < |parts| && parts[j].inlineData.Some?
    ensures FirstInline(parts + rest) == FirstInline(parts)
  {
    if parts[0].inlineData.None? {
      assert (parts + rest)[1..] == parts[1..] + rest;
      var j :| 0 <= j < |parts| && parts[j].inlineData.Some?;
      assert parts[1..][j - 1] == parts[j];
      LaterPartsIgnored(parts[1..], rest);
    }
  }

  // ---------------------------------------------------------------------
  // Chat
  // ---------------------------------------------------------------------

  const CHAT_MODEL := "gemini-3-pro-preview"
  const TUTOR_INSTRUCTION := "You are a helpful and knowledgeable music theory tutor. Explain concepts clearly. You can use markdown for formatting."
  const EMPTY_REPLY_FALLBACK := "I couldn't generate a response."

  /** A history entry as the SDK takes it: a role and its text parts. */
  datatype HistoryEntry = HistoryEntry(role: Role, parts: seq<string>)

  /** A chat session as created by `chats.create`: the model, the tutor
      persona and the history it was seeded with. What the SDK accumulates
      inside the session afterwards is the oracle's business. */
  datatype ChatSession = ChatSession(model: string, systemInstruction: string, history: seq<HistoryEntry>)

  /** `history.map(h => ({ role: h.role, parts: [{ text: h.text }] }))`. */
  function SeedHistory(history: seq<ChatMessage>): (r: seq<HistoryEntry>)
    ensures |r| == |history|
    ensures forall i :: 0 <= i < |r| ==> r[i] == HistoryEntry(history[i].role, [history[i].text])
  {
    if history == [] then []
    else [HistoryEntry(history[0].role, [history[0].text])] + SeedHistory(history[1..])
  }

  /** Reads a seeded history back as a transcript. */
  function TranscriptOf(entries: seq<HistoryEntry>): seq<ChatMessage> {
    if entries == [] then []
    else
      var text := if entries[0].parts == [] then "" else entries[0].parts[0];
      [ChatMessage(entries[0].role, text)] + TranscriptOf(entries[1..])
  }

  /** Seeding loses nothing: the transcript can be read back from a session. */
  lemma {:induction false} SeedHistoryRoundTrip(history: seq<ChatMessage>)
    ensures TranscriptOf(SeedHistory(history)) == history
  {
    if history != [] {
      SeedHistoryRoundTrip(history[1..]);
    }
  }

  /** `chats.create` with the chat model, the tutor persona and `history`
      seeded in order. */
  function NewSession(history: seq<ChatMessage>): (s: ChatSession)
    ensures s.model == CHAT_MODEL && s.systemInstruction == TUTOR_INSTRUCTION
    ensures s.history == SeedHistory(history)
    // the transcript the session was seeded with reads back unchanged
    ensures TranscriptOf(s.history) == history
  {
    SeedHistoryRoundTrip(history);
    ChatSession(CHAT_MODEL, TUTOR_INSTRUCTION, SeedHistory(history))
  }

  /** The part of a `sendMessage` result the service reads. */
  datatype SendResponse = SendResponse(text: Option<string>)

  /** `result.text || "I couldn't generate a response."`. */
  function ReplyText(text: Option<string>): (r: string)
    ensures r != ""
    ensures text.Some? && text.value != "" ==> r == text.value
    ensures text.None? || text.value == "" ==> r == EMPTY_REPLY_FALLBACK
  {
    if text.Some? && text.value != "" then text.value else EMPTY_REPLY_FALLBACK
  }

  /** One `sendMessageToChat` call: the session the message went to, the
      session left in the module variable, and what the call settles with. */
  datatype ChatCall = ChatCall(target: ChatSession, after: Option<ChatSession>, reply: Result<string, ServiceError>)

  /** `sendMessageToChat(message, history)` from a module session `current`,
      with `outcome` standing for how `sendMessage({ message })` settled. */
  function SendMessage(current: Option<ChatSession>, message: string, history: seq<ChatMessage>, outcome: Outcome<SendResponse>): (c: ChatCall)
    // an existing session is reused and `history` ignored
    ensures current.Some? ==> c.target == current.value
    // a missing session is created with the persona and `history` in order
    ensures current.None? ==>
      c.target.model == CHAT_MODEL && c.target.systemInstruction == TUTOR_INSTRUCTION
      && c.target.history == SeedHistory(history)
    // the session is kept exactly when the send succeeds
    ensures c.after == (if outcome.Returned? then Some(c.target) else None)
    ensures c.reply.Success? <==> outcome.Returned?
    ensures c.reply.Success? ==> c.reply.value == ReplyText(outcome.value.text)
    ensures c.reply.Failure? ==> c.reply.error == RequestFailed(outcome.reason)
  {
    var target := if current.Some? then current.value else NewSession(history);
    match outcome
    case Threw(reason) => ChatCall(target, None, Failure(RequestFailed(reason)))
    case Returned(response) => ChatCall(target, Some(target), Success(ReplyText(response.text)))
  }

  /** Once a session exists the `history` argument makes no difference. */
  lemma HistoryIgnoredWhileActive(s: ChatSession, message: string, h1: seq<ChatMessage>, h2: seq<ChatMessage>, outcome: Outcome<SendResponse>)
    ensures SendMessage(Some(s), message, h1, outcome) == SendMessage(Some(s), message, h2, outcome)
  {
  }

  /** After a failed send, the next call creates a fresh session from the
      history it is given, whichever session failed. */
  lemma FailureForcesNewSession(current: Option<ChatSession>, m1: string, h1: seq<ChatMessage>, reason: string,
                                m2: string, h2: seq<ChatMessage>, outcome: Outcome<SendResponse>)
    ensures var failed := SendMessage(current, m1, h1, Threw(reason));
      failed.after == None && SendMessage(failed.after, m2, h2, outcome).target == NewSession(h2)
  {
  }

  /** The module variable `chatSession`, and `sendMessageToChat` acting on it. */
  class ChatService {
    var chatSession: Option<ChatSession>

    constructor ()
      ensures chatSession == None
    {
      chatSession := None;
    }

    method SendMessageToChat(message: string, history: seq<ChatMessage>, outcome: Outcome<SendResponse>)
      returns (reply: Result<string, ServiceError>)
      modifies this
      ensures chatSession == SendMessage(old(chatSession), message, history, outcome).after
      ensures reply == SendMessage(old(chatSession), message, history, outcome).reply
    {
      if chatSession.None? {
        chatSession := Some(NewSession(history));
      }
      match outcome
      case Returned(response) =>
        reply := Success(ReplyText(response.text));
      case Threw(reason) =>
        chatSession := None;
        reply := Failure(RequestFailed(reason));
    }
  }
}
