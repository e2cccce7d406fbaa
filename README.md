# Gemini chat client: service and session state, modelled in Dafny

This project models the two deterministic cores of a browser chat client for
Google's Gemini models:

- **The model service** (`services/gemini.ts`). `sendMessageStream` picks the
  request configuration, encodes the history, and appends the prompt as a
  final user turn. It then forwards every streamed chunk's text to `onChunk`
  and calls `onComplete` once with the last chunk when the stream yielded
  any and did not throw. `generateImage` scans the parts of the first
  candidate for the image and its description. `extractGroundingLinks` turns the first candidate's
  grounding chunks into citation links.
- **The chat component's session state** (`App.tsx`). It creates and deletes
  sessions. Its submit handler guards against empty and duplicate submits,
  picks or creates the target session, and appends the user message (with the
  first-message title rule) and a streaming assistant placeholder. It then
  runs the request, applies the chunk, completion and error updaters to the
  placeholder, and sets and clears `isProcessing`.

Files and modules:

| file | module | models |
|---|---|---|
| `wrappers.dfy` | `Wrappers` | `Option`: a property that may be `undefined` or `null` |
| `js.dfy` | `Js` | the JavaScript built-ins the code relies on: truthiness, `a \|\| b`, `trim`, `substring(0, n)`, one-character `split`, `Number#toString` |
| `types.dfy` | `Types` | the records of `types.ts` |
| `gemini.dfy` | `Gemini` | `services/gemini.ts`: request assembly, streaming, image scan, grounding links |
| `sessions.dfy` | `Sessions` | the `setSessions` updaters of `App.tsx`, as pure functions over `seq<ChatSession>` |
| `app.dfy` | `App` | the component's state hooks as the class `ChatApp`, its handlers as methods, and the end-to-end properties of a submit |

How the model is shaped:

- Each updater `prev => prev.map(...)` is named by a `SessionUpdate` value and
  applied by `MapSessions`. A run of updaters is `ApplyAll`.
- The three loops of the service are methods with loop invariants. Each is
  proved against a specification function (`Callbacks`, `LastImageUrl` and
  `LastDescription`, `WebLinks`). Lemmas then characterise those functions.
- The submit handler is split at its await points. `BeginSubmit` covers lines
  86-135, `RunRequest` lines 137-204 and `FinishSubmit` lines 205-207.
  `HandleSubmit` runs the three in order, and its contract is the pure
  function `Submit`.
- External inputs are parameters. The `Date.now()` readings are a `Stamps`
  record, giving ids by `DecimalString`. The stream's behaviour is a
  `StreamReply`: the chunks it yields, then the error it throws, if any. The
  image call's reply is a `Result<Response>`.

Behaviour of the code worth knowing, all of it kept by the model:

- Empty chunk texts are forwarded as `''`, not filtered.
- An empty stream never calls `onComplete`, so the placeholder stays empty and
  streaming (`EmptyStreamAnswer`).
- The error updater replaces any text already streamed with the apology,
  rather than keeping it (`FailedStreamAnswer`).
- No maps grounding exists, and the links never get a `type` (`kind` is `None`).
- No other provider is dispatched to.

Two observations about the code as written:

- The parts built from the attached image (App.tsx:159-165) are never passed
  to `sendMessageStream`. `CurrentParts` builds them and `RunStreamRequest`
  drops them, as `handleSubmit` does.
- The initial title computed when a submit creates a session (App.tsx:93,
  trimmed input or "New Conversation") is always overwritten. The
  user-message updater (App.tsx:113) replaces it with the *untrimmed* first 30
  characters, because the new session has no messages yet. So an input of
  `"  hi"` gives the title `"  hi"`, and an image submit with empty input gives `""`
  (with input `"  "` it gives `"  "`)
  (`FreshSessionFirst`, `InitialTitleReplaced`).

## Model

| member | source | states |
|---|---|---|
| `Js.Truthy` | App.tsx:86 | defines JavaScript truthiness of an optional string: present and not `""`; used by the guard, the target choice and the image test |
| `Js.OrElse` | App.tsx:93 | `a \|\| b` on strings is `a` when `a` is non-empty and `b` when it is empty; empty exactly when both are |
| `Js.Trim` | App.tsx:86 | `trim()` is a contiguous slice of the input, everything before and after it is whitespace, and a non-empty result starts and ends with a character that is not whitespace |
| `Js.TrimEmptyIff` | App.tsx:86 | `s.trim()` is empty exactly when every character of `s` is ECMAScript whitespace |
| `Js.Prefix` | App.tsx:113 | `substring(0, n)` has length `min(n, len)` and is a prefix of the string |
| `Js.Split` | App.tsx:162-163 | `split(c)` yields at least one piece and no piece contains `c` |
| `Js.JoinSplit` | App.tsx:162-163 | joining the pieces of `split(c)` with `c` gives back the string |
| `Js.SplitOnePiece` | App.tsx:162-163 | `split(c)` yields a single piece exactly when the string holds no `c`, so index 1 is `undefined` exactly then |
| `Js.DecimalString` | App.tsx:57 | `toString()` of the clock reading is a non-empty run of decimal digits ending in the last digit |
| `Js.DecimalStringInjective` | App.tsx:104 | distinct clock readings give distinct ids |
| `Gemini.SelectConfig` | services/gemini.ts:22-25 | the config has tools exactly when search is requested and the model is not the image model, and then the tools are the one search tool |
| `Gemini.EncodePart` | services/gemini.ts:31-35 | a part becomes inline data exactly when its text is falsy and it carries inline data; otherwise its text, or `''` |
| `Gemini.BuildRequest` | services/gemini.ts:22-39 | the search tool exactly when `useSearch` is true and the model is not the image model, otherwise `{}`; one turn per history turn with its role and its parts in order, each part its text if truthy, else its inline data, else `{text:''}`; then one user turn holding the prompt |
| `Gemini.ChunkText` | services/gemini.ts:45 | defines `chunk.text \|\| ''`: the chunk's text, or `""` when it has none |
| `Gemini.Fragments` | services/gemini.ts:44-47 | defines the fragment list: one `ChunkText` per chunk, in arrival order |
| `Gemini.Concat` | services/gemini.ts:46 | defines `fullText` as the fragments joined in order; `ConcatAppend` proves it is built by repeated `+=` |
| `Gemini.Completes` | services/gemini.ts:51-53 | defines when `onComplete` fires: the stream yielded at least one chunk and did not throw |
| `Gemini.ConcatAppend` | services/gemini.ts:46 | appending a fragment to the accumulated text is concatenation with the fragments so far |
| `Gemini.Callbacks` | services/gemini.ts:44-53 | one `onChunk` per chunk in arrival order with `chunk.text` or `''`; at most one `onComplete`, as the last call, with the last chunk, and only when the stream yielded a chunk and threw nothing |
| `Gemini.SendMessageStream` | services/gemini.ts:12-58 | sends the request of `BuildRequest`, makes exactly the calls of `Callbacks`, ends with `fullText` equal to the concatenation of all forwarded fragments, and re-throws the stream's error unchanged |
| `Gemini.ImageParts` | services/gemini.ts:70 | the parts list is found exactly when the first candidate, its content and its parts all exist; otherwise a TypeError |
| `Gemini.LastImageUrl` | services/gemini.ts:67-76 | defines the image URL the scan leaves, from the last part with inline data; its meaning is proved by `LastImageUrlEmpty` and `LastImageUrlAt` |
| `Gemini.LastDescription` | services/gemini.ts:67-76 | defines the description the scan leaves, from the last part with truthy text and no inline data; its meaning is proved by `LastDescriptionEmpty` and `LastDescriptionAt` |
| `Gemini.LastImageUrlEmpty` | services/gemini.ts:67-76 | the image URL is empty exactly when no part has inline data |
| `Gemini.LastImageUrlAt` | services/gemini.ts:71-72 | the image URL is `data:image/png;base64,` plus the data of the last part with inline data |
| `Gemini.LastDescriptionEmpty` | services/gemini.ts:68-76 | the description is empty exactly when no part has truthy text without inline data |
| `Gemini.LastDescriptionAt` | services/gemini.ts:73-74 | the description is the text of the last part with truthy text and no inline data |
| `Gemini.ImageOutcome` | services/gemini.ts:60-83 | a service error is re-thrown unchanged; a missing candidate, content or parts list throws a TypeError; otherwise the result holds `LastImageUrl` and `LastDescription` of the parts |
| `Gemini.GenerateImage` | services/gemini.ts:60-83 | sends the prompt to the image model and returns the scan result of `ImageOutcome` |
| `Gemini.GroundingChunksOf` | services/gemini.ts:87 | the optional chain gives chunks exactly when the candidates exist and are non-empty and the first one has grounding metadata with a chunk list |
| `Gemini.LinkOf` | services/gemini.ts:91-94 | a link has the web URI, the title when truthy and otherwise the URI, and no `type` |
| `Gemini.WebLinks` | services/gemini.ts:86-96 | defines the links of a chunk list: `LinkOf` each chunk with a web reference, in chunk order; its meaning is proved by the four `WebLinks*` lemmas below |
| `Gemini.WebLinksAppend` | services/gemini.ts:89-96 | extraction distributes over concatenation of chunk lists, so links keep chunk order |
| `Gemini.WebLinksLength` | services/gemini.ts:89-96 | never more links than chunks; as many exactly when every chunk has a web reference |
| `Gemini.WebLinksFromChunks` | services/gemini.ts:90-95 | every link is the link of some chunk that has a web reference |
| `Gemini.WebLinksPointwise` | services/gemini.ts:89-96 | when every chunk has a web reference, link `i` is the link of chunk `i` |
| `Gemini.ExtractGroundingLinks` | services/gemini.ts:85-99 | returns `WebLinks` of the first candidate's grounding chunks; `[]` when candidates, metadata or chunks are absent; never longer than the chunk list |
| `Sessions.FindFirst` | App.tsx:45 | `find` returns the session at the first index holding the id |
| `Sessions.FindSession` | App.tsx:45 | `find` returns the first session with the id, or none when no session has it |
| `Sessions.WithoutSession` | App.tsx:69 | `filter` never lengthens the list and leaves no session with the deleted id |
| `Sessions.WithoutSessionMembers` | App.tsx:69 | after deleting, exactly the sessions with another id remain |
| `Sessions.WithoutSessionAppend` | App.tsx:69 | deleting distributes over concatenation, so the survivors keep their order |
| `Sessions.WithoutAbsentSession` | App.tsx:69 | deleting an id no session has leaves the list unchanged |
| `Sessions.UpdateMessage` | App.tsx:144-149 | a message updater keeps the id, role, timestamp and model; a chunk is appended to the content; completion sets the links, the error sets the apology, the image result sets description and URL, and each of these three stops streaming |
| `Sessions.ApplyToSession` | App.tsx:113 | a session updater keeps the session's id, creation time and model; the two appends add exactly one message at the end; the user-message append applies the title rule; a message updater keeps the title and the count |
| `Sessions.MapSessions` | App.tsx:111-115 | an updater keeps the list's length, leaves every session with another id unchanged, and keeps the target's id, creation time and model |
| `Sessions.AddUserMessageEffect` | App.tsx:111-115 | the target's messages grow by the user message at the end; its title becomes `content.substring(0, 30)` if it had no messages and is kept otherwise |
| `Sessions.AddMessageEffect` | App.tsx:133-135 | the target's messages grow by the placeholder at the end; its title is kept |
| `Sessions.UpdateMessagesShape` | App.tsx:172-178 | a message updater keeps the title, the message count and each message's id and role, and changes only messages with the assistant id |
| `Sessions.UpdateAll` | App.tsx:176 | no sequence of message updaters changes a message's id, role, timestamp or model |
| `Sessions.TouchesEffect` | App.tsx:172-203 | after any run of message updaters, other sessions are untouched, and in the target only messages with the assistant id change, each by the whole run in order |
| `Sessions.ChunksAccumulate` | App.tsx:176 | after n chunk updaters, the content is the old content followed by the chunks in order |
| `Sessions.ChunksThenFinish` | App.tsx:187 | completion after the chunks keeps the streamed text, sets the links and stops streaming |
| `Sessions.ChunksThenFail` | App.tsx:201 | an error after the chunks replaces the content with the fixed apology and stops streaming |
| `Sessions.UserMessage` | App.tsx:103-109 | the user message has the clock id, role user, the raw input as content, and an image URL exactly when the attachment is truthy; no model and no streaming flag |
| `Sessions.Placeholder` | App.tsx:124-131 | the placeholder is an assistant message with empty content, the selected model, streaming, and no links or image |
| `Sessions.InitialTitle` | App.tsx:93 | a new session's initial title is the trimmed input's first 30 characters, or "New Conversation" when the trimmed input is empty |
| `Sessions.HistoryOf` | App.tsx:154-157 | one turn per message in order, `user` exactly for user messages and `model` otherwise, with the content as the single text part; `[]` with no session |
| `Sessions.CurrentParts` | App.tsx:160-165 | the prompt part, then an image part exactly when an image is attached, holding the data URL's payload and MIME type as split out at lines 162-163 |
| `Sessions.DataUrlData` | App.tsx:162 | `split(',')[1]` is undefined exactly when the URL has no comma, and a present payload contains no comma |
| `Sessions.DataUrlMimeType` | App.tsx:163 | `split(';')[0].split(':')[1]` is undefined exactly when the text before the first `;` has no colon, and a present MIME type contains no colon |
| `Sessions.DataUrlRoundTrip` | App.tsx:162-163 | a base64 data URL splits back into its MIME type and its payload |
| `App.Blocked` | App.tsx:86 | defines the guard: the trimmed input is empty and no image is attached, or a request is running; `BlockedIff` states it on characters |
| `App.TargetId` | App.tsx:88-100 | the target id is never empty, and it is the active id whenever that is truthy |
| `App.Listed` | App.tsx:88-98 | with a truthy active id the list is unchanged; otherwise one empty session with the target id and the initial title is put in front of the old list |
| `App.Begin` | App.tsx:86-135 | at the request the composer is cleared, `isProcessing` is set, the target is active, the captured prompt, image, model and flag are the pre-submit ones, and the list grew by one exactly when no session was active |
| `App.Submit` | App.tsx:84-208 | a refused submit changes nothing; otherwise the submit ends idle with the composer cleared, the target active and the list as long as at the request |
| `App.BlockedIff` | App.tsx:86 | a submit is refused exactly when the input is all whitespace and no image is attached, or a request is running |
| `App.StreamUpdatesShape` | App.tsx:167-204 | a completed stream updates the placeholder by its chunks then completion; a throwing one by its chunks then the error; an empty one not at all |
| `App.ProcessingLifecycle` | App.tsx:117-121 | `isProcessing` is set while the request runs and cleared after it, on success and failure alike; input and attachment are cleared and the target is active |
| `App.FreshSessionFirst` | App.tsx:88-115 | with no active session, a new session goes first, holding the user message and the placeholder, titled with the untrimmed first 30 characters of the input |
| `App.FreshSessionRest` | App.tsx:98 | behind the new session, the old sessions with other ids keep their order and contents |
| `App.FreshSessionSubmit` | App.tsx:154-157 | with no active session, the new session is named by the clock and the history sent is empty |
| `App.InitialTitleReplaced` | App.tsx:93 | the initial title differs from the one the updater writes: `"  hi"` gives `"hi"` at creation but `"  hi"` after; `""` gives "New Conversation" but `""` |
| `App.ExistingSessionSubmit` | App.tsx:111-135 | a submit into the active session appends the user message and the placeholder there and applies the title rule; the history sent is `HistoryOf` the session `find` returns, which is that session when it is the first with the id |
| `App.FinalAssistant` | App.tsx:137-204 | after a submit, the target's last message is the placeholder with every reply updater applied |
| `App.StreamedAnswer` | App.tsx:167-191 | after a completed stream, the placeholder holds the concatenated chunk texts and the last chunk's links, and has stopped streaming |
| `App.FailedStreamAnswer` | App.tsx:195-204 | after a stream that throws, even after some chunks, the placeholder holds only the apology and has stopped streaming |
| `App.EmptyStreamAnswer` | services/gemini.ts:51-53 | after a stream with no chunks and no error, the placeholder stays empty and streaming |
| `App.ImageAnswer` | App.tsx:138-152 | with the image model, the placeholder takes the description and image URL, or the apology on any error |
| `App.SubmitFrame` | App.tsx:172-203 | sessions other than the target come out of the request exactly as they went in |
| `App.ChatApp.constructor` | App.tsx:33-40 | the initial state: no sessions, no active id, Gemini 3 Flash, empty input, search off, idle, no image |
| `App.ChatApp.CreateNewSession` | App.tsx:55-65 | prepends one empty "New Conversation" session for the selected model, makes it active, and changes nothing else |
| `App.ChatApp.DeleteSession` | App.tsx:67-71 | removes the sessions with that id; clears the active id exactly when it was that id |
| `App.ChatApp.SelectSession` | App.tsx:228 | sets the active id and nothing else |
| `App.ChatApp.ToggleSearch` | App.tsx:277 | flips the search flag and nothing else |
| `App.ChatApp.SelectModel` | App.tsx:288 | sets the selected model and nothing else |
| `App.ChatApp.SetInputValue` | App.tsx:389 | sets the input and nothing else |
| `App.ChatApp.AttachImage` | App.tsx:77-79 | stores the uploaded data URL and nothing else |
| `App.ChatApp.RemoveImage` | App.tsx:378 | clears the attachment and nothing else |
| `App.ChatApp.OpenTargetSession` | App.tsx:88-101 | targets the active session, or prepends a new one with the initial title and makes it active |
| `App.ChatApp.AppendUserMessage` | App.tsx:103-115 | applies the user-message updater to the target and nothing else |
| `App.ChatApp.ClearComposer` | App.tsx:119-121 | empties the input, drops the attachment and sets `isProcessing`, nothing else |
| `App.ChatApp.AppendPlaceholder` | App.tsx:123-135 | applies the placeholder updater to the target and returns the placeholder's id |
| `App.ChatApp.BeginSubmit` | App.tsx:84-135 | a refused submit changes nothing; otherwise the state and captured values are those of `Begin` |
| `App.ChatApp.UpdatePlaceholder` | App.tsx:172-203 | applies one message updater to the target session and nothing else |
| `App.ChatApp.RunImageRequest` | App.tsx:138-152 | applies the image result updater, or the error updater, to the placeholder |
| `App.ChatApp.ApplyCallbacks` | App.tsx:171-191 | applies the chunk and completion updaters for the calls, in order |
| `App.ChatApp.RunStreamRequest` | App.tsx:154-193 | sends the request built from the snapshot history, prompt and search flag, then applies the callbacks' updaters and, if the stream threw, the error updater |
| `App.ChatApp.RunRequest` | App.tsx:137-204 | takes the image branch for the image model and the streaming branch otherwise |
| `App.ChatApp.FinishSubmit` | App.tsx:205-207 | clears `isProcessing` and nothing else |
| `App.ChatApp.HandleSubmit` | App.tsx:84-208 | the new state is `Submit` of the old one; the request sent uses the pre-submit session's history |

## Left out

- JSX rendering, styling, scrolling, refs, the sidebar toggle and the `Enter`
  key shortcut (App.tsx:47-53, App.tsx:210-441). These are presentation only.
- The `FileReader` read of an upload (App.tsx:73-82). It is browser I/O, and
  only its result arriving is modelled, by `AttachImage`.
- `components/Icons.tsx`. It only re-exports icons.
- The SDK client, its construction from the API key, and the network calls
  (services/gemini.ts:8-10, 28, 62). A stream is given as a `StreamReply`, and
  an image reply as a `Result<Response>`.
- `Response.text` is taken as a field of the chunk. In the SDK it is a getter
  over the candidate's parts, and that derivation is not modelled.
- `Web.uri` is always a string. A web reference without a URI, which would
  put `undefined` into a link, is not modelled.
- async/await and event-loop scheduling. Each handler is a sequential
  composition of updates. The callbacks are collected as a trace and then
  applied in order. This is equivalent here because they only touch
  `sessions` and the service loop only its locals. Interleaving other
  handlers (a deletion during a stream) is possible only between the phase
  methods.
- `console.error` logging (services/gemini.ts:55, 80; App.tsx:196).
- JavaScript strings are UTF-16 code units, and here they are Dafny `char`s.
  `substring(0, 30)` may split a surrogate pair in `handleSubmit`; that is not
  modelled.
- Provider tags and the non-Gemini model ids (types.ts:7-10, 33) are declared
  but no code uses them, so they carry no behaviour.
- `Gemini.SendMessageStream`: it returns `fullText`, which in `sendMessageStream` is a
  local that is never read. It is returned only so that its invariant can be
  stated.
