# AgriAssist chat client: a Dafny model of its state logic

AgriAssist is a React chat client for a crop-health advisor. The user types a
question, attaches up to five photos or dictates by voice, and the backend
replies. This project models the logic behind that screen as immutable
datatypes and pure state transitions, and proves properties of them:

- **Types** (`types.dfy`): `Message`, `UploadedImage` and the `ApiResponse`
  envelope. JavaScript's `undefined`/`null` are `Nullish<T>` and its truthiness
  is `Truthy`.
- **Seqs** and **Text** (`seqs.dfy`, `text.dfy`): an order-preserving `Filter`;
  `String.prototype.trim` over the ECMAScript whitespace set; `startsWith`;
  the decimal rendering of a status code in `HTTP ${status}`.
- **Api** (`api.dfy`): `handleResponse`, `getAuthHeader`, the request each
  transport operation builds, and the `try`/`catch` mapping of each one.
- **Chat** (`chat.dfy`): the `useChat` session manager. `sendMessage` is split at
  its `await` into `BeginSend` and `Settle`, and `ClearChat` may run between them.
- **ImageUploader** (`image_uploader.dfy`): staging files (`processFiles`) and
  removing a staged image (`removeImage`) with its revoked preview.
- **ChatInput** (`chat_input.dfy`): the send guard, `canSend`, the Enter key,
  the composer's own five-image `processFiles`, and how a transcription is
  appended to the draft.
- **VoiceRecorder** and **VoiceButton** (`voice_recorder.dfy`,
  `voice_button.dfy`): the `useVoiceRecorder` state machine with its chunk
  buffer and error slot, and the microphone button's click dispatch,
  `disabled` state and aria label.

Fresh uuids, clock readings and object URLs are parameters. The network's
answer is a `Transport` value. `startRecording` is split at its `await` into
`RequestStart` and `SettleStart`, and whether the microphone was granted is a
boolean.

Three behaviours of the code the model follows:

- `sendMessage` in useChat.ts stores and sends the content untrimmed. Only the
  composer trims.
- `clearChat` does not lower the in-flight flag.
- `register` and `login` attach no bearer header and have no `catch`.

## Model

| member | source | states |
|---|---|---|
| Chat.Initial | src/services/hooks/useChat.ts:7-18 | A mounted hook holds one assistant greeting that is not loading, the flag is down, and the session id is the minted one. |
| Chat.BeginSend | src/services/hooks/useChat.ts:22-45 | A request is emitted exactly when the trimmed content is non-empty or images are attached. Otherwise the state is unchanged. On a send, the old log is an untouched prefix followed by exactly two entries. The first is the user entry with the untrimmed content and the given images. The second is an empty assistant placeholder marked loading. The flag is raised and the session id kept. The call carries the content, the image files in order, and the current session id. |
| Chat.SettledContent | src/services/hooks/useChat.ts:58-60 | On success the placeholder gets the reply when one is present and "No response received." only when it is absent, so an empty reply stays empty. On failure it gets the warning sign followed by the error. |
| Chat.AdoptedSession | src/services/hooks/useChat.ts:48-50 | The session id changes only on a successful response that carries a non-empty session id, and then it becomes that id. |
| Chat.ResolveById | src/services/hooks/useChat.ts:53-63 | The map over the log keeps its length, leaves every entry with another id unchanged, and resolves every entry with the placeholder's id. |
| Chat.Settle | src/services/hooks/useChat.ts:47-65 | Only entries with the placeholder's id change. They keep their id, role, timestamp and images, stop loading and get the settled content. If the id is absent, the log is unchanged. The session id is adopted as above, and the flag is lowered. |
| Chat.ClearChat | src/services/hooks/useChat.ts:70-81 | The log becomes a single assistant greeting that is not loading, without the tip. The session id is the minted one, and the in-flight flag is left as it was. |
| Chat.SettleAfterClear | src/services/hooks/useChat.ts:52-64 | A response arriving after clearChat finds no placeholder and leaves the cleared log alone. |
| Chat.StaleResponseAdoptsSession | src/services/hooks/useChat.ts:48-50 | Such a late response still replaces the freshly minted session id with the old conversation's id when it carries one. |
| Chat.SendThenSettle | src/services/hooks/useChat.ts:41-64 | A send followed by its settle, with nothing between, changes the log only by appending the user entry and the resolved placeholder. |
| Chat.AdoptedSessionIsUsedNext | src/services/hooks/useChat.ts:45-49 | The session id the server assigned is the one the next request carries. |
| Chat.BeginSendKeepsIdsUnique | src/services/hooks/useChat.ts:24-41 | With freshly minted ids, a send keeps every id in the log distinct. |
| Chat.SettleRewritesOneEntry | src/services/hooks/useChat.ts:52-64 | With distinct ids, a settle rewrites exactly the placeholder's slot. |
| Chat.SettleRewritesOnly | src/services/hooks/useChat.ts:52-64 | Settling by an id that only one entry carries rewrites exactly that entry. |
| Chat.BeginSendEvolves | src/services/hooks/useChat.ts:41 | A send only appends to the log. |
| Chat.SettleEvolves | src/services/hooks/useChat.ts:52-64 | A settle changes the log only by resolving loading placeholders. |
| Chat.BeginSendPlaceholderAlone | src/services/hooks/useChat.ts:32-41 | Right after a send, the placeholder is the only entry with its id. |
| ImageUploader.ImageFiles | src/components/ImageUploader.tsx:21 | Only files whose type starts with "image/" are kept, every such file is kept, and nothing else is. |
| ImageUploader.SliceTo | src/components/ImageUploader.tsx:23 | The result is a prefix of the array. Its length is the end clamped to the length, or for a negative end the length minus that many, but not below zero. |
| ImageUploader.Stage | src/components/ImageUploader.tsx:25-30 | Each new image wraps its file in order, is named after it, and has the id and preview minted for it. |
| ImageUploader.ProcessFiles | src/components/ImageUploader.tsx:19-33 | The staged images are an unchanged prefix of the result. The new images' files are the image files of the input, in order, truncated to the remaining capacity. Each new image has its file's name and its minted id and preview. |
| ImageUploader.ProcessFilesKeepsIdsUnique | src/components/ImageUploader.tsx:19-33 | Minted ids that differ from each other and from the staged ids keep all ids distinct. |
| ImageUploader.ProcessFilesWithinCapacity | src/components/ImageUploader.tsx:22-23 | Starting within capacity, exactly min(number of image files, free slots) images are added, so the result never exceeds maxImages. |
| ImageUploader.ProcessFilesAtCapacity | src/components/ImageUploader.tsx:22-23 | A full buffer takes nothing. |
| ImageUploader.ProcessFilesAllFit | src/components/ImageUploader.tsx:21-32 | When everything fits, the result's files are the staged files followed by every image file of the input. |
| ImageUploader.ProcessFilesOverCapacity | src/components/ImageUploader.tsx:22-23 | Above capacity, the negative slice end drops the excess from the back of the input rather than adding nothing. |
| ImageUploader.FindIndex | src/components/ImageUploader.tsx:49 | The position `find` stops at is the first image with the id, or the length when none has it. |
| ImageUploader.RemoveImage | src/components/ImageUploader.tsx:48-52 | The result holds exactly the images with another id. A preview is revoked exactly when some image has the id, and it is the preview of the first match. |
| ImageUploader.RemoveUnknownId | src/components/ImageUploader.tsx:48-52 | An unknown id leaves the list unchanged and revokes nothing. |
| ImageUploader.FindUnique | src/components/ImageUploader.tsx:49 | With distinct ids, `find` stops at the one image carrying the id. |
| ImageUploader.FilterSplice | src/components/ImageUploader.tsx:51 | With distinct ids, filtering out the k-th image's id leaves the images before it followed by the images after it. |
| ImageUploader.RemoveIsSplice | src/components/ImageUploader.tsx:48-52 | With distinct ids, removing the k-th image's id takes out exactly that image, keeps the rest in order, and revokes its preview. |
| ImageUploader.PreviewsSplice | src/components/ImageUploader.tsx:50-51 | Taking one image out of the list takes exactly its preview out of the multiset of previews. |
| ImageUploader.RemoveAccountsForPreviews | src/components/ImageUploader.tsx:48-52 | With distinct ids, the multiset of previews before a removal is the multiset still staged plus the revoked one, so no preview is lost or revoked twice. |
| ChatInput.CanSend | src/components/ChatInput.tsx:72 | Sending is enabled exactly when not disabled and the text holds a non-whitespace character or an image is staged. |
| ChatInput.HandleSend | src/components/ChatInput.tsx:22-28 | onSend is called exactly when canSend holds. It gets the trimmed text and the staged images, or undefined when none are staged, and the draft is then emptied. Otherwise the draft is unchanged. |
| ChatInput.HandleKeyDown | src/components/ChatInput.tsx:30-35 | Enter without Shift runs handleSend, and every other key sends nothing and leaves the draft. |
| ChatInput.EnterSendsExactlyWhenSendable | src/components/ChatInput.tsx:23-33 | Enter sends exactly when canSend holds, and Shift+Enter never sends. |
| ChatInput.StageFiles | src/components/ChatInput.tsx:52-64 | The composer stages the image files after the existing images, in order, at most 5 minus the number already staged, and never exceeds 5 when starting within capacity. |
| ChatInput.StageFilesKeepsIdsUnique | src/components/ChatInput.tsx:52-62 | Minted ids that differ from each other and from the staged ids keep all ids in the draft distinct. |
| ChatInput.AppendTranscript | src/components/ChatInput.tsx:42-43 | A successful transcription with non-empty text appends it after the draft, separated by one space when the draft is non-empty. Any other result leaves the draft unchanged. |
| ChatInput.VoiceToggle | src/components/ChatInput.tsx:37-49 | The voice toggle stops exactly when the microphone button would call onStop, and starts whenever it would call onStart. |
| ChatInput.StopBranch | src/components/ChatInput.tsx:38-46 | A blob is transcribed exactly when a recorder exists and is recording. It holds the buffered and flushed non-empty chunks in order, the recorder ends idle, and the draft gets the transcript. A null stop leaves the draft and the recorder unchanged. |
| ChatInput.VoiceClickToggles | src/components/ChatInput.tsx:37-49 | An enabled microphone click stops while recording and starts otherwise. Stopping leaves the recorder processing and always hands a blob to transcription. A granted start leaves it recording. |
| ChatInput.DictationRoundTrip | src/components/ChatInput.tsx:37-46 | After a granted start, chunks, a stopping click and flushed chunks, the blob transcribed holds exactly the non-empty chunks in order, the draft gets the transcript, and the request carries the blob as recording.webm. |
| ChatInput.SentMessageIsLogged | src/components/ChatInput.tsx:23-24 | Whatever the composer sends passes the session manager's guard and is logged with the trimmed text. |
| Api.HandleResponse | src/services/api.ts:12-18 | The corrected handleResponse, which reads a `null` body as a body without properties. Success holds exactly when the status is 2xx and the body's success is truthy, and then the data is the body's data. An unparseable body always fails with "Invalid server response". Otherwise a failure carries the body's error when it is present and "HTTP " plus the status otherwise. |
| Api.HandleResponseAsWritten | src/services/api.ts:12-18 | handleResponse as written rejects exactly when the body is `null`, and otherwise settles with the envelope of the corrected version. |
| Api.HandleResponseAgrees | src/services/api.ts:12-18 | The corrected handleResponse matches handleResponse as written on every body except `null`, where the version as written rejects. |
| Api.Call | src/services/api.ts:54-68 | The corrected operation, with handleResponse corrected. It rejects only on a transport failure in register or login. Any other transport failure yields that operation's fixed failure message. Success implies a 2xx response. A received response is handled by handleResponse. |
| Api.CallAsWritten | src/services/api.ts:54-68 | An operation as written rejects exactly on a transport failure in an operation without a catch, or on a `null` body in any operation. A caught transport failure yields the operation's fixed message, and any other received response is handled by the corrected handleResponse. |
| Api.NullBodyEscapesCatch | src/services/api.ts:12-18 | As written, every operation rejects on a `null` body, even those with a `catch`, while the corrected one answers "HTTP " plus the status. |
| Api.CallAgrees | src/services/api.ts:54-68 | Apart from a `null` body, the corrected operation behaves as written. |
| Api.AuthHeader | src/services/api.ts:7-10 | The header map holds at most `Authorization`. It holds it exactly when a non-empty token is stored, and then the bearer value carries exactly that token. |
| Api.BaseUrl | src/services/api.ts:3 | A set, non-empty VITE_API_BASE_URL is the base. An unset or empty one falls back to http://localhost:5000/api, so the base is never empty. |
| Api.ChatParts | src/services/api.ts:55-58 | The chat form starts with the message, and has one part per image plus one for a non-empty session id. |
| Api.ChatPartsRead | src/services/api.ts:55-58 | Under any field name, the chat form reads back as the message under `message`, the non-empty session id under `sessionId`, the images under `images`, and nothing else. |
| Api.ChatPartsReadBack | src/services/api.ts:55-58 | Reading the chat form back yields the message once, the session id exactly when it is non-empty, and every image in order. |
| Api.DiagnoseParts | src/services/api.ts:83-86 | The diagnosis form puts the images first, in order, and then the message. |
| Api.DiagnosePartsRead | src/services/api.ts:83-86 | Under any field name, the diagnosis form reads back as the images under `images`, the message under `message`, the non-empty session id under `sessionId`, and nothing else. |
| Api.DiagnosePartsReadBack | src/services/api.ts:83-86 | Reading the diagnosis form back yields every image in order, the message once, and the session id exactly when it is non-empty. |
| Api.FilePartsValues | src/services/api.ts:58 | Reading file parts back yields the files in order under their field name and nothing under any other name. |
| Api.TextValuesAppend | src/services/api.ts:55-58 | Appending form parts appends the text values read under every name. |
| Api.FileValuesAppend | src/services/api.ts:58 | Appending form parts appends the files read under every name. |
| Api.FileParts | src/services/api.ts:58 | `forEach` appends one file part per image, in order, under the given name. |
| Api.RegisterRequest | src/services/api.ts:22-33 | Register posts JSON to /auth/register with only the content-type header and no bearer token. |
| Api.LoginRequest | src/services/api.ts:35-45 | Login posts JSON to /auth/login with only the content-type header and no bearer token. |
| Api.ChatRequest | src/services/api.ts:49-64 | The chat request posts to /chat and carries the stored token as a bearer token exactly when one is set. A server reading the form back gets the message once, the session id exactly when it is non-empty, the images in order, and nothing under any other name. |
| Api.DiagnoseRequest | src/services/api.ts:73-92 | The diagnosis request posts to /diagnose and carries the stored token as a bearer token exactly when one is set. A server reading the form back gets the images in order, the message once, the session id exactly when it is non-empty, and nothing under any other name. |
| Api.TranscribeRequest | src/services/api.ts:101-112 | The transcription request posts to /transcribe and carries the stored token as a bearer token exactly when one is set. A server reading the form back gets the recording once, under `audio` as recording.webm, and no other text, file or recording. |
| Api.SessionsRequest | src/services/api.ts:121-127 | The session list is a GET of /sessions with no body. It carries the stored token as a bearer token exactly when one is set, and no other header. |
| Api.SaveSessionRequest | src/services/api.ts:134-143 | Saving posts JSON to /sessions. The headers are the JSON content type, plus the stored token as a bearer token exactly when one is set. |
| Text.Trim | src/components/ChatInput.tsx:23-24 | The trimmed text is the infix left after the leading and trailing whitespace. It is empty exactly when the text is all whitespace, and otherwise neither end is whitespace. |
| Text.TrimIdempotent | src/components/ChatInput.tsx:24 | Trimming already-trimmed text changes nothing. |
| Text.DecimalRoundTrip | src/services/api.ts:15 | The status rendered in "HTTP ${status}" reads back as that status, so distinct statuses give distinct messages. |
| Seqs.FilterAppend | src/components/ImageUploader.tsx:51 | Filtering a concatenation is concatenating the filtered parts, which is the order preservation `filter` promises. |
| VoiceRecorder.InitialIsConsistent | src/services/hooks/useVoiceRecorder.ts:13-16 | The hook starts idle with no error, in a consistent state. |
| VoiceRecorder.RequestStart | src/services/hooks/useVoiceRecorder.ts:19-21 | Before awaiting the microphone, a start clears the error and changes nothing else. |
| VoiceRecorder.SettleStart | src/services/hooks/useVoiceRecorder.ts:21-35 | A granted request installs a recorder with an empty buffer and records, leaving the error as it is. A denied one sets the fixed message and goes idle, keeping the recorder and the buffer. |
| VoiceRecorder.StartRecording | src/services/hooks/useVoiceRecorder.ts:18-36 | With nothing else happening during the microphone request, a granted start clears the error, installs a recorder with an empty buffer and records, whatever the state was. A denial sets the fixed message and goes idle, keeping the buffer. |
| VoiceRecorder.OverlappingStarts | src/services/hooks/useVoiceRecorder.ts:18-36 | With two starts in flight, a denial settling first leaves the hook recording with the denial shown. A grant settling first leaves it idle with the new recorder installed. |
| VoiceRecorder.DataAvailable | src/services/hooks/useVoiceRecorder.ts:26-28 | Only a chunk of positive size is appended to the buffer. |
| VoiceRecorder.Deliver | src/services/hooks/useVoiceRecorder.ts:26-28 | A run of `dataavailable` events leaves the recording state, the error, the recorder and any pending stop handler as they were. |
| VoiceRecorder.DeliverBuffers | src/services/hooks/useVoiceRecorder.ts:26-28 | A run of chunks appends exactly the non-empty ones to the buffer, in arrival order. |
| VoiceRecorder.StopRecording | src/services/hooks/useVoiceRecorder.ts:38-57 | Without a recorder, or unless recording, stop resolves null and changes nothing. Otherwise it moves to processing and awaits the stop event. |
| VoiceRecorder.StopConfirmed | src/services/hooks/useVoiceRecorder.ts:48-53 | The stop event goes idle and resolves an audio/webm blob of the buffered chunks in order. |
| VoiceRecorder.RecordingRoundTrip | src/services/hooks/useVoiceRecorder.ts:18-56 | Start, chunks, stop, flushed chunks and the stop event yield a blob of exactly the non-empty chunks in order, and the hook ends idle. |
| VoiceRecorder.StepTransitions | src/services/hooks/useVoiceRecorder.ts:18-57 | Recording is entered only by a granted microphone request. Processing is entered only by a stop while recording. Recording ends only in processing, or in idle through a denied request or a pending stop event. |
| VoiceRecorder.RunStaysConsistent | src/services/hooks/useVoiceRecorder.ts:18-57 | In every reachable state a recorder exists while recording or processing, and processing always has a stop handler pending. |
| VoiceButton.HandleClick | src/components/VoiceButton.tsx:20-23 | A click calls onStop exactly while recording, onStart exactly while idle, and nothing while processing. |
| VoiceButton.Disabled | src/components/VoiceButton.tsx:30 | The button is disabled exactly when the prop is set or a click would call nothing. |
| VoiceButton.AriaLabel | src/components/VoiceButton.tsx:31 | The label is "Stop recording" exactly while recording and "Start voice input" otherwise. |
| VoiceButton.ButtonAgreesWithClick | src/components/VoiceButton.tsx:20-31 | The button is disabled exactly when the prop is set or a click would call nothing, and its label names the callback a click invokes. |

## Left out

- Rendering: JSX, class names, titles, icons, drag-highlight state, `preventDefault`, focusing the textarea, and resetting the file input's value.
- `src/components/Sidebar.tsx`, `ChatWindow.tsx`, `ChatMessage.tsx` and `src/App.tsx` are not part of this model. They are markup and wiring.
- The single request in flight: App passes `disabled={isLoading}` to the composer. The model assumes this and runs `BeginSend`/`Settle` pairs one at a time, with `ClearChat` allowed between them.
- React's closure staleness and the interleaving of overlapping `sendMessage` calls belong to the scheduler and are not modelled.
- I/O is not modelled. `fetch` becomes a `Transport` value, and `FormData` an ordered list of parts. `localStorage` and `import.meta.env` become the `Context` fields.
- `JSON.stringify` is not modelled. A JSON body is its list of fields.
- VoiceRecorder.StartRecording: promises its result only when nothing else happens while the microphone request is pending. Interleavings are the separate `RequestStart` and `SettleStart` steps of `VoiceRecorder.Run`, and `VoiceRecorder.OverlappingStarts` shows what two overlapping starts leave.
- Browser media is not modelled. `getUserMedia` is the `granted` flag, and `MediaRecorder` events are explicit steps. `Blob` is the chunk list with its type, and stopping tracks has no effect in the model.
- `uuidv4`, `new Date()` and `URL.createObjectURL` are parameters, not functions. Timestamps are integers. Freshness of ids is a precondition of the lemmas that need it.
- `URL.revokeObjectURL` is modelled as the revoked preview in the removal's result.
- Strings are sequences of code points. Lone UTF-16 surrogates and string length in UTF-16 units are not modelled.
- Numbers are integers. Floating point, NaN and `DiagnosisResult` (its `confidence` is a float) are not modelled.
- A JSON `error` that is not a string is not modelled. `json.data` has the declared type.
- A rejected `sendChatMessage` inside `sendMessage` is not modelled. `Chat.Settle` takes the envelope of the corrected `Api.Call`, which always returns one for the chat operation; the as-written rejection is under "## Findings".
- `ImageUploader`'s `maxImages` prop is a parameter. Its default of 5 is `ImageUploader.DefaultMaxImages`.
- The composer's upload button, disabled at five images, is rendering only. `ChatInput.StageFiles` models the cap it guards.

## Findings

| source | as written | input that shows it | evidently intended | confidence | as-written member | corrected member |
|---|---|---|---|---|---|---|
| src/services/api.ts:12-18, 54-68 | `handleResponse` reads `json.success` without checking for `null`. `return handleResponse(res)` is not awaited inside `try`, so the rejection escapes the `catch`. In useChat.ts the `await sendChatMessage(...)` then rejects, so the placeholder keeps loading and `isLoading` stays raised. | A response whose body is the JSON literal `null`, with any status. Every operation then rejects, including the five whose `catch` promises a failure envelope. | A failure envelope "HTTP " + status, the same as a body without a `success` property. | not executed | Api.CallAsWritten (exhibited by Api.NullBodyEscapesCatch) | Api.Call with Api.HandleResponse |
