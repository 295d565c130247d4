# Telephony dialogue assistant: dialogue engine and call-session controller

This project models, in Dafny, two sequential cores of a phone assistant. The
assistant answers a call, hears the caller through the telephony provider's
speech recognizer, asks a hosted language model for a reply, and speaks the
reply back. The two cores are:

- **The dialogue engine** (`ai_core.py`, module `AiCore` in `ai_core.dfy`):
  - the fixed system prompt: the persona text and the knowledge base, framed by
    blank lines;
  - `get_ai_response`, which gives one assistant reply to one user utterance.
  In order, `get_ai_response`:
  1. seeds an empty history with the system turn;
  2. appends the user turn;
  3. caps the list it sends to the model at 21 turns (the first turn plus the
     last 20);
  4. concatenates the streamed text fragments, skipping chunks whose `delta` or
     `content` is missing;
  5. substitutes a fixed "no proper answer" text when the result is blank;
  6. appends the assistant turn and returns the text.
  An `Exception` raised by the model call yields a second fixed text instead.
- **The call-session controller** (`twilio_app.py`, module `TwilioApp` in
  `twilio_app.dfy`): the process-wide `conversations` table from call id to
  history, and the webhook handlers `incoming_call` and `handle_speech`. The
  handlers update the table and return voice instructions. The instructions are
  values of the `Verb` datatype (`Say`, `Gather`, `Redirect`, `Hangup`), not XML.

The model's streamed answer is an input value: `LlmStream` is either
`Ok(chunks)`, a stream that ran to completion, or `Err(chunks)`, a stream that
raised after delivering `chunks`. A failed request is `Err([])`. Each chunk has
an optional `delta`, and each delta has an optional `content`.

A history is a heap object (`AiCore.History`, a class holding a `seq` of turns),
so that aliasing stays visible. `GetAiResponse` returns the object its local name
refers to at the end. Line 95 of `ai_core.py` rebinds that local name to a new
list when the cap fires. As a result:
- the caller's list is never shortened;
- when the cap fires, the assistant turn lands only in the fresh local list. The
  caller's list gains just the user turn.
Once a caller's list holds 21 turns, every later call appends only user turns to
it (`AiCore.CallerListGrowsByUserTurnsOnly`). The model keeps this behaviour as
written.

The table is a class `TwilioApp.CallSessions` whose field `conversations`
maps call ids to `History` objects.
- `Valid()` requires that no two ids share a history object.
- `Contents()` is the table's abstract value: each id's turn sequence.
- `AfterIncoming` and `AfterSpeech` state each handler's effect on that value
  and the instructions it returns.
- `Run` folds a sequence of events over the table, so that lemmas can state
  properties of whole call histories.

Three behaviours of the code worth knowing:
- The caller's list is not capped. Only the sequence sent to the model is capped.
- `handle_speech` tests the speech with Python truthiness. Absent speech and the
  empty string are "nothing heard"; whitespace-only speech goes to the model.
- The `CallSid` form field may be absent. An absent id is then a key of the
  table like any other (`CallSid = Option<string>`).

## Model

| member | source | states |
|---|---|---|
| `AiCore.FallbacksAreNotBlank` | ai_core.py:112-122 | neither fixed fallback text strips to nothing |
| `AiCore.SystemPromptFramesPersonaAndKnowledge` | ai_core.py:78-83 | the system prompt is a newline, the persona text, a blank line, the knowledge base (possibly empty) and a blank line |
| `AiCore.StripLeading` | ai_core.py:112 | `lstrip()`: the result is empty exactly when the text is all whitespace (as Python's `str.isspace` defines it, modelled by `IsSpace`), and otherwise starts with a non-whitespace character |
| `AiCore.StripTrailing` | ai_core.py:112 | `rstrip()`: the result is empty exactly when the text is all whitespace, and otherwise ends with a non-whitespace character |
| `AiCore.StripEmptyIffBlank` | ai_core.py:112 | `not response_text.strip()` holds exactly when every character of the text is whitespace (`IsBlank`) |
| `AiCore.ContentOf` | ai_core.py:104-109 | a chunk contributes text only when its delta and its content are both present, and then exactly that content; `StreamText` accumulates these contributions in stream order and is pinned down by the three `StreamText` lemmas |
| `AiCore.History.constructor` | ai_core.py:95 | a new list holds exactly the given turns (the truncated copy at ai_core.py:95, the empty list at twilio_app.py:57) |
| `AiCore.Capped` | ai_core.py:93-95 | the local list has min(len, 21) turns, keeps the first turn, ends with the most recent turns in their original order, holds no turn absent from the input, and is the input itself when there are at most 21 turns |
| `AiCore.FinalText` | ai_core.py:111-113 | the text after the blank check is never blank, and a non-blank assembled text passes unchanged |
| `AiCore.ReplyFor` | ai_core.py:99-122 | the returned text is never blank; it is the error fallback when the model call raised, the assembled text when that is not blank, and the no-answer fallback otherwise |
| `AiCore.History.Append` | ai_core.py:89 | appending a turn adds exactly that turn at the end of the list |
| `AiCore.ConsumeStream` | ai_core.py:102-109 | the streaming loop yields the in-order concatenation of the contents of the chunks whose delta and content are present, and nothing when the stream raised |
| `AiCore.GetAiResponse` | ai_core.py:85-122 | reply, caller's list and local list are as `ReplyFor`, `CallerAfter` and `LocalAfter` say; without truncation the local list is the caller's own object, with truncation it is a fresh one |
| `AiCore.StreamTextConcat` | ai_core.py:103-109 | the text of two stream segments is the text of the first followed by the text of the second |
| `AiCore.StreamTextOne` | ai_core.py:106-109 | a single chunk contributes its delta's content when both are present, and nothing otherwise |
| `AiCore.StreamTextSkipsEmptyChunk` | ai_core.py:105-109 | a chunk missing its delta or its content changes nothing wherever it occurs, and is not an error |
| `AiCore.SystemTurnSeededOnlyWhenEmpty` | ai_core.py:88-89 | an empty history gets the system prompt as its first turn; a non-empty one keeps its turns as a prefix and gains no system turn |
| `AiCore.UserTurnAlwaysRecorded` | ai_core.py:91 | the user turn is recorded in the caller's list right after the existing turns, on every outcome including a failed model call |
| `AiCore.ContextIsCapped` | ai_core.py:93-97 | the sequence sent to the model has at most 21 turns, starts with the first turn, ends with the user turn, and is exactly the first turn plus the last 20 once the list exceeds 21 |
| `AiCore.CallerListNeverShortened` | ai_core.py:88-95 | the caller's old turns remain a prefix of its list, which grows on every call |
| `AiCore.TruncationDropsAssistantTurnFromCaller` | ai_core.py:94-115 | when the cap fires, the caller's list gains only the user turn and the reply is the 22nd turn of the local copy |
| `AiCore.CallerListGrowsByUserTurnsOnly` | ai_core.py:91-115 | once the caller's list holds 21 turns, any further calls append exactly one user turn each and no assistant turn |
| `AiCore.ReplyIsLastAssistantTurn` | ai_core.py:115-122 | on success the returned text is the content of the assistant turn that ends the local list; on failure no assistant turn is added to either list |
| `AiCore.ReplyRecordedForCallerWithoutTruncation` | ai_core.py:112-118 | without truncation, a successful call leaves the caller's list ending with a non-blank assistant turn |
| `TwilioApp.HasSpeech` | twilio_app.py:99 | the truthiness test `if user_speech:` is false for absent speech, false only for absent or empty speech, and true for whitespace-only speech |
| `TwilioApp.IncomingReply` | twilio_app.py:61-76 | call-started's instructions are two verbs: a gather posting to `/voice/handle-speech` that speaks the greeting, then a redirect to `/voice/incoming`; there is no hang-up |
| `TwilioApp.AfterIncoming` | twilio_app.py:56-57 | call-started adds the id to the key set, keeps every existing entry, and gives an unseen id an empty history |
| `TwilioApp.AfterSpeech` | twilio_app.py:89-134 | speech keeps the key set and every other id's history; the reply ends with a hang-up exactly when the id is unknown, and otherwise ends with a gather posting to `/voice/handle-speech` followed by a redirect there |
| `TwilioApp.CallSessions.constructor` | twilio_app.py:26 | the table starts empty |
| `TwilioApp.CallSessions.IncomingCall` | twilio_app.py:48-77 | the table changes as `AfterIncoming` says; every known id keeps its history object; an unseen id gets a fresh one; the instructions are always `IncomingReply` |
| `TwilioApp.CallSessions.Converse` | twilio_app.py:99-102 | the dialogue routine runs on that call's history object, the table of objects is unchanged, and only that call's history contents change |
| `TwilioApp.CallSessions.HandleSpeech` | twilio_app.py:79-135 | the table of objects is unchanged and its contents and the instructions are as `AfterSpeech` says |
| `TwilioApp.UnknownSessionHangsUp` | twilio_app.py:89-97 | speech for an unknown id says the session-problem message, hangs up, and leaves the table unchanged |
| `TwilioApp.EmptySpeechReprompts` | twilio_app.py:119-134 | absent or empty speech says the nothing-heard message, gathers again and redirects, leaving the table unchanged |
| `TwilioApp.SpeechInvokesDialogue` | twilio_app.py:99-117 | non-empty speech for a known id updates that id's history as the dialogue routine does on exactly that text, and speaks its non-blank reply inside a gather |
| `TwilioApp.NoDialogueWithoutSpeech` | twilio_app.py:89-132 | on the unknown-id and no-speech paths the outcome is the same for every model answer, so the dialogue routine is not consulted |
| `TwilioApp.KeysOnlyGrow` | twilio_app.py:56-102 | over any sequence of events no entry is ever removed from the table |
| `TwilioApp.OtherSessionsUntouched` | twilio_app.py:100-102 | an id that no event names keeps its entry, or its absence, unchanged over any sequence of events |
| `TwilioApp.OnlyCallStartedCreatesSessions` | twilio_app.py:56-97 | an id absent at the start and never named by a call-started event stays absent from the table over any sequence of events |
| `TwilioApp.NeverStartedSpeechHangsUp` | twilio_app.py:89-97 | in any sequence of events, every speech event for an id absent at the start and never started gets the session-problem message and a hang-up |
| `TwilioApp.EndToEndScenario` | twilio_app.py:56-134 | call A1 is started, asked a question, and then hears nothing: greeting and empty history, then a seeded history with the question and a spoken reply, then the nothing-heard prompt with the history unchanged |

## Left out

- The language-model client (`groq.LLM`, `llm.chat` and the async stream) is a foreign call. Its outcome is the `LlmStream` input.
- Building `ChatContext` at ai_core.py:97 happens outside the `try`. An exception raised there is not modelled.
- The environment checks and `load_dotenv` are not modelled: they are process configuration.
- Reading knowledge_base.txt is file I/O. `KnowledgeBase` is an uninitialised constant: any string, possibly empty.
- `make_outbound_call` and the Twilio REST client are a network client only, so they are not modelled.
- FastAPI routing, form parsing and TwiML XML serialisation are plumbing. The form fields are the handlers' parameters, and the document is a `seq<Verb>`.
- The voice, language, speech-timeout and input attributes of `say` and `Gather`, and the POST method of `redirect`, are constant presentation details and are left out.
- `VoiceResponse` is modelled as the local sequence `twiml`, appended to step by step. The object is created per request and never shared, so no aliasing is lost. A `Gather` is a value, because nothing changes it after it is appended.
- `print` logging is not modelled.
- Concurrent webhook requests are not modelled. Each event touches one key of the table, and `OtherSessionsUntouched` states this for sequences of events.
- A chat message's content is a one-element list in the source; the model holds the string itself.
- Only `Exception` is caught at ai_core.py:120. A `BaseException` such as `asyncio.CancelledError` or `KeyboardInterrupt` escapes `get_ai_response`; the model has no such outcome.
- The stream is assumed to end. `LlmStream` is a finite sequence, and the source sets no timeout of its own, so a stream that never ends (which hangs `handle_speech`) cannot be expressed.
- AiCore.ReplyIsLastAssistantTurn: logging is assumed not to raise. The `print` at ai_core.py:117 is inside the `try` after the append at line 115; if it raised, the local list would keep the assistant turn while the error fallback is returned.
