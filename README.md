# MuseTheory-AI in Dafny

MuseTheory-AI is a React client for a generative-AI service. It has three screens:

- a **theory visualiser**: type "C Major Scale", get a payload of notes, and see them lit on a two-octave piano and a twelve-fret guitar;
- a **tutor chat** backed by one long-lived chat session;
- an **album-art generator** that asks an image model for a square picture.

This project models the logic beneath the SDK calls and the JSX, and proves properties of it:

- `GeminiService` (`gemini_service.dfy`) models the service layer.
  - The theory adapter checks for empty text, then parses without checking anything.
  - The image adapter scans parts for the first one with inline data.
  - The chat adapter keeps a module-level session, which it creates on demand and resets on failure.
  - Every SDK call is an oracle whose settled outcome (`Outcome<T>`: `Returned(v)` or `Threw(reason)`) is a parameter. `JSON.parse` is a parameter too: `parse: string -> Option<Json>`.
- `ChatBotComponent` (`chatbot.dfy`) models the chat panel.
  - `Send` is the specification of `handleSend`.
  - The class `ChatBot` holds the component's state hooks and a reference to the `ChatService` object that owns the module session.
  - Lemmas cover whole conversations, built from turns (`Turn` = draft and outcome): their shape, their order, and how the session is reseeded after a failure.
- `GuitarFretboard` (`guitar.dfy`): `getNoteAtFret` with JavaScript's `indexOf` and `%`, pitch-class arithmetic, and the 6 × 13 grid.
- `PianoKeyboard` (`piano.dfy`): the 24-key render loop as a method with loop invariants. It is specified by `KeyAt` and `WhiteKeysBefore`, and lemmas prove the key counts and black-key placement.
- `PitchNames` (`pitch_names.dfy`): the twelve sharp-spelled names and the shared highlight rule. `JsText` (`js_text.dfy`): `trim` and `replace(/[0-9]/g, '')`.
- `AppComponent` (`app.dfy`) and `ImageGeneratorComponent` (`image_generator.dfy`): the two request handlers. Each has a specification function, a class with the state hooks, and lemmas about what the screen shows.
- `Types` (`types.dfy`): the records, and reading a parsed `Json` value as a `VisualizationData`.

Each handler is modelled as one atomic step, from the click to the settled call. While a call is pending, the code disables the control that starts it, and in the chat panel the input field as well. Other controls stay live during a call (the sidebar's mode buttons, the theory and image prompt inputs); what they can do meanwhile is listed under "Left out".

Behaviour worth knowing:

- **No payload validation.** `generateTheoryData` returns whatever `JSON.parse` produced; there is no shape check and no length check. See `GeminiService.NoFieldValidation` and `GeminiService.NoLengthValidation`.
- **Always PNG.** The image data URI always says `image/png`; the MIME type the oracle declares is ignored.
- **Missing data becomes "undefined".** An inline part without `data` still counts as found and yields `data:image/png;base64,undefined`.
- **A `null` answer clears the screen.** A theory answer that parses to `null` is stored as the screen's initial empty value, so no payload and no banner are shown (`AppComponent.NullPayloadClearsScreen`). Other falsy answers (`false`, `0`, `""`) are stored but not drawn.
- **The session outlives the panel.** The chat session is module state, so remounting the panel keeps it; only a failed send resets it.
- **Reseeding after a failure.** After a failed chat turn, the next send seeds a new session with the transcript as the user sees it:
  - the earlier entries;
  - the failed draft, as a user entry;
  - the error notice, as a model entry.

  The failed user message is kept because `handleSend` appends it before the call. The history it passes is the closure's `messages`, and that value includes both appended entries on the next turn (`ChatBotComponent.FailureReseedsWithNotice`).

## Model

| member | source | states |
|---|---|---|
| JsText.Trim | components/ChatBot.tsx:20 | `trim()` yields the empty string exactly when every character is ECMAScript whitespace; otherwise the result neither starts nor ends with whitespace |
| JsText.StripDigits | components/Guitar.tsx:19 | removing ASCII digits leaves no digit and never lengthens the name |
| JsText.StripDigitsAppend | components/Piano.tsx:15 | stripping digits distributes over concatenation, so the remaining characters keep their order |
| JsText.StripDigitsKeeps | components/Piano.tsx:15 | a non-digit character survives stripping exactly when it was present |
| JsText.StripDigitsNoDigits | components/Piano.tsx:15 | a name without digits is unchanged |
| JsText.StripDigitsOnlyDigits | components/Piano.tsx:15 | an octave number vanishes entirely |
| JsText.StripOctave | components/Guitar.tsx:19 | a name followed by an octave number ("C#4") compares as the bare name |
| Types.StringItems | types.ts:12-13 | a JSON array reads as a list of strings exactly when every item is a string, item for item and in order |
| Types.StringItemsRoundTrip | types.ts:12-13 | reading back a list of strings written as a JSON array gives the same list |
| Types.AsVisualizationData | types.ts:7-15 | a payload accepted as `VisualizationData` is an object whose `notes` and `intervals` are JSON string arrays holding exactly the accepted lists |
| PitchNames.IsHighlighted | components/Guitar.tsx:18-20 | a name is lit when some listed entry, with its digits removed, equals it; a name containing a digit is never lit |
| PitchNames.NotesSpelling | components/Piano.tsx:7 | no pitch name contains a digit or a flat sign 'b' |
| PitchNames.FlatSpellingNeverMatches | components/Guitar.tsx:18-20 | a highlighted name spelled with 'b' (even with an octave) never equals any pitch name |
| PitchNames.FlatEntriesIgnored | components/Piano.tsx:11-17 | adding flat-spelled entries to the highlight list changes no key's highlight, in both directions |
| PitchNames.OctaveNumberIgnored | components/Piano.tsx:11-17 | a highlight entry with an octave number lights the bare pitch name |
| GeminiService.GenerateTheoryData | services/geminiService.ts:45-50 | a thrown call is rethrown; a missing or empty text fails with "No data returned"; success happens exactly when the text is non-empty and parses, and the result is then the parsed value itself |
| GeminiService.NoFieldValidation | services/geminiService.ts:47 | a payload that is not even an object (a number) is returned as a success, although it does not read as `VisualizationData` |
| GeminiService.NoLengthValidation | services/geminiService.ts:47 | any payload with the expected fields is returned unchanged and reads as `VisualizationData` with its `notes` and `intervals` lists as sent, whatever their lengths |
| GeminiService.ResponseParts | services/geminiService.ts:74 | the parts are the first candidate's content's parts whenever those are present; missing candidates, no candidate, missing content or missing parts give no parts |
| GeminiService.DataUri | services/geminiService.ts:76 | the URI is the PNG base64 prefix followed by the part's data, or by the word "undefined" when the part has no data |
| GeminiService.FirstInline | services/geminiService.ts:74-75 | the index found is the first part carrying inline data, or the end of the list when there is none |
| GeminiService.ImageOutcome | services/geminiService.ts:74-79 | a thrown call is rethrown; otherwise the call fails exactly when no part has inline data, with "No image generated"; a success is the data URI of the first part with inline data, every earlier part having none |
| GeminiService.GenerateMusicImage | services/geminiService.ts:56-84 | the request carries the image model, the prompt as the only part, the caller's size and aspect ratio "1:1"; the part scan's result equals `ImageOutcome` |
| GeminiService.LaterPartsIgnored | services/geminiService.ts:74-77 | once some part has inline data, appending further parts does not change which part is taken |
| GeminiService.SeedHistory | services/geminiService.ts:99-102 | the seed has one entry per message, each with the message's role and its text as the only part, in order |
| GeminiService.SeedHistoryRoundTrip | services/geminiService.ts:99-102 | the transcript can be read back from a seeded session unchanged |
| GeminiService.ReplyText | services/geminiService.ts:108 | the reply is the returned text when non-empty, and "I couldn't generate a response." otherwise; it is never empty |
| GeminiService.NewSession | services/geminiService.ts:94-103 | a new session has the chat model, the tutor persona and `history` seeded entry by entry, and the transcript reads back from it unchanged |
| GeminiService.SendMessage | services/geminiService.ts:90-115 | an existing session is used as it is; a missing one is created with the tutor model and persona, its history exactly `SeedHistory(history)`; the session is kept exactly when the send returns; a throw yields the SDK's error |
| GeminiService.HistoryIgnoredWhileActive | services/geminiService.ts:93 | while a session exists, the `history` argument makes no difference to the call |
| GeminiService.FailureForcesNewSession | services/geminiService.ts:109-113 | after a failed send, the module session is null, and the next call creates a new session from the history it is given |
| GeminiService.ChatService.constructor | services/geminiService.ts:88 | the module session starts as null |
| GeminiService.ChatService.SendMessageToChat | services/geminiService.ts:90-115 | the module variable and the settled reply are those of `SendMessage` from the session held before the call |
| ChatBotComponent.BotText | components/ChatBot.tsx:35-49 | the model entry is never empty: the service's reply text (`ReplyText`) when the call returned, the fixed error notice when it threw |
| ChatBotComponent.Send | components/ChatBot.tsx:19-53 | a blank draft changes nothing; otherwise the draft and then the reply or notice are appended, the draft is cleared, loading is over, and the service received the transcript from before this turn |
| ChatBotComponent.SendEnabled | components/ChatBot.tsx:115 | the send button is enabled exactly when the panel is idle and the draft holds a character that is not whitespace |
| ChatBotComponent.ButtonMatchesGuard | components/ChatBot.tsx:115 | when idle, the send button is enabled exactly when clicking it changes the panel |
| ChatBotComponent.AlternatingAppend | components/ChatBot.tsx:29-49 | two well-formed transcripts in a row (user, then non-empty model, repeated) form one |
| ChatBotComponent.Drafts | components/ChatBot.tsx:25 | the drafts of a run of turns, one per turn, in order |
| ChatBotComponent.Exchanges | components/ChatBot.tsx:29-49 | a run of N turns adds 2N entries, and with no blank draft they form a well-formed transcript |
| ChatBotComponent.ExchangesUserTexts | components/ChatBot.tsx:25 | the user entries a run of turns adds are its drafts, in the order sent |
| ChatBotComponent.StepAppendsExchange | components/ChatBot.tsx:29-49 | a turn with a non-blank draft appends exactly its user entry and its reply or notice, and leaves a session exactly when its call returned |
| ChatBotComponent.ConverseAppends | components/ChatBot.tsx:29-49 | a run of turns appends its exchanges in order and leaves every earlier entry in place |
| ChatBotComponent.ConversationTranscript | components/ChatBot.tsx:8-53 | from an empty panel, N non-blank turns leave 2N entries alternating user and model, with the user entries being the drafts in the order sent |
| ChatBotComponent.ConversationKeepsAlternating | components/ChatBot.tsx:29-49 | turns keep a well-formed transcript well formed |
| ChatBotComponent.ConverseSnoc | components/ChatBot.tsx:19-53 | running one more turn at the end is that turn applied after the others |
| ChatBotComponent.SessionAfterTurns | services/geminiService.ts:106-113 | after a run of turns, a session is held exactly when the last turn's call returned, whatever happened before |
| ChatBotComponent.FailureReseedsWithNotice | components/ChatBot.tsx:34-49 | after a failed turn the session is null, the transcript is the earlier entries, the failed draft and the notice, and the next send creates a session seeded with exactly that transcript |
| ChatBotComponent.ChatBot.constructor | components/ChatBot.tsx:8-10 | a mounted panel has an empty transcript and draft, is idle, and shares the service whose session it finds |
| ChatBotComponent.ChatBot.SetInput | components/ChatBot.tsx:109 | typing replaces the draft and nothing else |
| ChatBotComponent.ChatBot.HandleSend | components/ChatBot.tsx:19-53 | the panel's fields and the service's module session end as `Send` prescribes |
| ChatBotComponent.ChatBot.HandleKeyDown | components/ChatBot.tsx:55-60 | Enter without Shift sends exactly as the button would; any other key changes nothing |
| GuitarFretboard.IndexOf | components/Guitar.tsx:13 | `indexOf` yields -1 exactly when the name is absent, and otherwise an index holding it |
| GuitarFretboard.IndexFrom | components/Guitar.tsx:13 | the search from a position finds `x` at or after it, or -1 when `x` is absent |
| GuitarFretboard.IndexFromIsFirst | components/Guitar.tsx:13 | no position before the one the search finds holds `x` |
| GuitarFretboard.IndexOfIsFirst | components/Guitar.tsx:13 | `indexOf` finds the first occurrence |
| GuitarFretboard.NoteFromIndex | components/Guitar.tsx:14 | a found index gives `NOTES[(index + fret) mod 12]`; the index -1 gives `undefined` at fret 0 and otherwise the name `fret - 1` places along |
| GuitarFretboard.NoteAtFret | components/Guitar.tsx:11-15 | `getNoteAtFret` is `undefined` exactly for an open note missing from `NOTES` at fret 0 |
| GuitarFretboard.IndexOfNotes | components/Guitar.tsx:12-13 | each pitch name is found at its own position |
| GuitarFretboard.PitchAtFret | components/Guitar.tsx:11-15 | for an open note among the names, fret f gives the name at `(indexOf(open) + f) mod 12` |
| GuitarFretboard.NextFretIsSuccessor | components/Guitar.tsx:14 | the note one fret higher is the cyclic successor in `NOTES` of the note at this fret |
| GuitarFretboard.OctaveRepeats | components/Guitar.tsx:8-14 | fret f + 12 gives the same note as fret f, so fret 12 repeats the open string |
| GuitarFretboard.StringsAreNotes | components/Guitar.tsx:7-12 | every open string of the tuning is one of the twelve names |
| GuitarFretboard.Fretboard | components/Guitar.tsx:32-46 | the board has 6 strings of 13 positions; each position's note is one of the twelve names, is `getNoteAtFret` of its string and fret, and is lit exactly when the highlight rule says so |
| PianoKeyboard.IsSharp | components/Piano.tsx:54 | among the twelve pitch names, the ones containing '#' are exactly the two-letter ones |
| PianoKeyboard.SharpPositions | components/Piano.tsx:7 | the names with '#' sit at octave positions 1, 3, 6, 8 and 10 |
| PianoKeyboard.WhiteCount | components/Piano.tsx:73 | a key adds at most one to `whiteKeyCount` |
| PianoKeyboard.WhiteCountMeansWhite | components/Piano.tsx:54-73 | a key adds one to `whiteKeyCount` exactly when its name has no '#' |
| PianoKeyboard.WhiteKeysBefore | components/Piano.tsx:49-73 | the count of white keys before key i never exceeds i |
| PianoKeyboard.KeyAt | components/Piano.tsx:52-93 | key i is named `NOTES[i mod 12]`, is lit by the highlight rule, is black exactly when its name has '#', and a black key's centre lies at `whiteKeyCount × 3.5` rem |
| PianoKeyboard.Layout | components/Piano.tsx:45-96 | the loop emits 24 keys, and key i is `KeyAt(i)` |
| PianoKeyboard.FirstOctaveWhiteKeys | components/Piano.tsx:51-73 | the first octave holds 7 white keys |
| PianoKeyboard.WhiteKeysPerOctave | components/Piano.tsx:51-73 | every run of 12 keys adds 7 white keys |
| PianoKeyboard.WhiteKeyTotal | components/Piano.tsx:49-73 | `whiteKeyCount` ends at 14, so 10 of the 24 keys are black |
| PianoKeyboard.WhiteKeysMonotone | components/Piano.tsx:73 | `whiteKeyCount` never decreases and grows by at most one per key |
| PianoKeyboard.BlackNeighbours | components/Piano.tsx:52-54 | a black position is never the first key and has white positions on both sides |
| PianoKeyboard.BlacksApart | components/Piano.tsx:73-80 | between two black keys `whiteKeyCount` grows by at least one |
| PianoKeyboard.BlackKeyBetweenWhiteKeys | components/Piano.tsx:46-80 | a black key has white neighbours, is not key 0, sees `whiteKeyCount ≥ 1`, and so starts at 2.5 rem or more |
| PianoKeyboard.BlackKeysDoNotOverlap | components/Piano.tsx:80-91 | a later black key starts at least one white-key width (3.5 rem) to the right of an earlier one, more than a black key's width, so black keys strictly increase and never overlap |
| PianoKeyboard.SecondOctaveRepeatsFirst | components/Piano.tsx:51-55 | keys i and i + 12 have the same name, highlight and colour, and a black key moves exactly 7 white keys to the right |
| AppComponent.TheorySearch | App.tsx:17-31 | a blank prompt changes nothing; otherwise loading ends, and either the new payload replaces the old one with no error (a `null` payload leaves the state empty), or the old payload stays under the fixed failure notice |
| AppComponent.SearchSettles | App.tsx:19-30 | after a search from an idle screen the submit button is enabled again, the banner shows exactly when the call failed, and after a successful call a payload is drawn exactly when the parsed value is truthy |
| AppComponent.SearchReenablesSubmit | App.tsx:112 | the submit button (disabled while loading) is left disabled after a search only when it already was and a blank prompt made the search do nothing |
| AppComponent.NullPayloadClearsScreen | App.tsx:25 | an answer that parses to `null` empties the stored payload, shows no banner and draws nothing, even over an earlier payload |
| AppComponent.StalePayloadUnderBanner | App.tsx:24-27 | a failed search after a successful one keeps the earlier payload beneath the banner; a successful retry removes the banner and shows the new payload |
| AppComponent.PayloadNotesShownInOrder | App.tsx:24-25 | the notes of a payload are shown exactly as sent, in order, with no error |
| AppComponent.App.constructor | App.tsx:12-15 | the screen starts with an empty prompt, idle, with no payload and no error |
| AppComponent.App.SetTheoryPrompt | App.tsx:105 | typing replaces the prompt and nothing else |
| AppComponent.App.HandleTheorySearch | App.tsx:17-31 | the screen's fields end as `TheorySearch` prescribes |
| ImageGeneratorComponent.Generate | components/ImageGenerator.tsx:13-28 | a blank prompt changes nothing; otherwise prompt and size stay, loading ends, and exactly one of the image and the failure notice is shown, according to the image outcome |
| ImageGeneratorComponent.GenerateKeepsConsistent | components/ImageGenerator.tsx:16-24 | generation never leaves an image and an error on screen together, and any image shown is a PNG data URI |
| ImageGeneratorComponent.NoStaleImage | components/ImageGenerator.tsx:18 | a non-blank generation's result does not depend on the image or error shown before it |
| ImageGeneratorComponent.NoImagePartShowsError | components/ImageGenerator.tsx:21-24 | a response with no inline image part shows the failure notice and no image |
| ImageGeneratorComponent.GenerateEnabled | components/ImageGenerator.tsx:73 | every prompt the handler acts on enables the button when idle; the button is never enabled during a call or for an empty prompt |
| ImageGeneratorComponent.WhitespacePromptEnablesButIgnored | components/ImageGenerator.tsx:73 | any non-empty whitespace-only prompt enables the idle button, yet clicking it changes nothing |
| ImageGeneratorComponent.ImageGenerator.constructor | components/ImageGenerator.tsx:7-11 | the generator starts with an empty prompt, size 1K, no image, idle and with no error |
| ImageGeneratorComponent.ImageGenerator.SetPrompt | components/ImageGenerator.tsx:48 | typing replaces the prompt and nothing else |
| ImageGeneratorComponent.ImageGenerator.SetSize | components/ImageGenerator.tsx:55-58 | a size button sets one of the three sizes and nothing else |
| ImageGeneratorComponent.ImageGenerator.HandleGenerate | components/ImageGenerator.tsx:13-28 | the fields end as `Generate` prescribes; a request is sent exactly when the prompt is not blank, and it carries that prompt, the selected size and aspect ratio "1:1" |

## Left out

- The `@google/genai` SDK (`generateContent`, `chats.create`, `sendMessage`) and the network: each settled call is a parameter (`Outcome<T>`). The remote model is a black box. `chats.create` is taken not to throw.
- What the chat SDK keeps inside a session after creation is not modelled. A `ChatSession` records only its model, persona and seed history. The chat message text reaches only the oracle.
- `JSON.parse` is the parameter `parse`. The request schema and the prompt text sent with the theory request are hints to the remote side and are not modelled.
- `async`/`await`: each handler is one atomic step, and no interleaving is modelled. React's batching of state updates is not modelled either: each handler's final state is what its `set` calls leave.
- Overlapping sends after a remount during a pending call: the sidebar's mode buttons (App.tsx:46-80) stay enabled. Leaving chat mode while a send is pending unmounts the panel, and a fresh panel can send again on the same module session. If the first call then fails, it resets the session under the second call. The model assumes one send at a time.
- Edits to the theory or image prompt (and the image size) while that screen's call is pending: the settled call's updates do not read them, so the final state differs only in the prompt field.
- The render crash on a malformed payload: a truthy theory payload whose `notes` is not an array of strings throws while rendering (`theoryData.notes.map` at App.tsx:145, and `n.replace` in Piano.tsx:15 and Guitar.tsx:19). The model stores such a payload but does not model the render.
- The `id` and `timestamp` of chat messages, taken from `Date.now()`: they play no part in any decision.
- JSX, styling, icons, Markdown rendering, the scroll effect, the download link, the empty-state hint, and the sidebar's mode switching (`AppMode`).
- `renderOctave` (components/Piano.tsx:19-40) is never called.
- `process.env.API_KEY` and `console.error` logging.
- The widths are exact rationals (`real`); browser layout and floating-point rendering of `rem` values are not modelled.
- GuitarFretboard.IndexOf: its contract does not state first occurrence itself; `IndexOfIsFirst` proves it.
- PianoKeyboard.WhiteCount: its contract states only the bound; `WhiteCountMeansWhite` proves the link to the key's name.
- The handlers' guard `!x.trim()` is written `Blank(x)`, which `JsText.Trim`'s contract proves to be the same test. `trim` itself appears where the code computes it for the chat send button.
