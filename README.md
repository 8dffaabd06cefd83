# soul-graph-chat-app: the streaming-chat core in Dafny

This project models the streaming-chat core of soul-graph-chat-app, a
Next.js chat client for the SoulGraph and OpenAI back ends, and proves
properties of that model. The core has these parts:

- **Client stream decoder.** `sendMessageStream` in `src/services/api.ts`
  reads a server-sent event stream. It keeps a carry-over buffer and
  splits on `"\n\n"`. It takes the first `data: ` line of each fragment
  and parses its JSON. It latches a thread id, reports chunks, and signals
  completion.
  - Modules: `SseSplit` (the split), `SseDecoder` (the decoder as
    functions), `Api` (the loop as methods, plus the other client calls).
- **OpenAI route.** `src/app/api/openai/route.ts` emits a `thread_id`
  frame, one `chunk` frame per non-empty delta, and a `done` frame.
  - Module `OpenAiRoute`.
- **JSON codec for frames.** A concrete `JSON.stringify`/`JSON.parse`
  pair for flat frame objects, with its round trip proved.
  - Module `FrameCodec`.
- **Round trip.** The route's stream read back by the client, however the
  text is cut into reads.
  - Module `StreamRoundTrip`.
- **Chat component.** `src/components/Chat.tsx` covers reassembly of a
  streamed reply, sending with a non-streaming fallback, thread loading,
  and the realtime subscription to the open thread.
  - Module `ChatComponent`, class `Chat`.
- **Threads proxy route.** `src/app/api/threads/route.ts` handles
  parameter defaults, the 400 on a missing user, and error classification.
  - Module `ThreadsRoute`.
- **Realtime thread browser.** `src/examples/SupabaseRealTimeExample.tsx`
  keeps a thread list in step with database change events, tracks the
  selected thread and its channel, and sends messages.
  - Module `RealtimeExample`, class `Example`.
- **Realtime demo panel.** `src/components/SupabaseRealTimeDemo.tsx` holds
  one channel, its status and the error message.
  - Module `RealtimeDemo`, class `Demo`.
- **Bounded event logs.** Both realtime components keep a newest-first log
  capped at ten.
  - Module `EventLog`.

Supporting modules:

- `Wrappers` holds `Option` and `Result`.
- `JsText` holds JavaScript's `trim`, `startsWith` and number-to-string.
- `ChatTypes` holds the records of `src/types/index.ts`.

Network answers, database rows, clock readings and the OpenAI deltas are
parameters of the operations that consume them. React state and refs
become fields of a class, updated in the order the handlers update them.

## Model

| member | source | states |
|---|---|---|
| Api.BuildRequest | src/services/api.ts:14-22 | `new_thread` is set exactly when no thread id is given; the user id and system prompt are the fixed ones; message, thread id, stream flag and model are carried over |
| Api.Endpoint | src/services/api.ts:25 | the OpenAI route is chosen exactly for model `openai`, the SoulGraph proxy for every other model |
| Api.SendMessage | src/services/api.ts:12-33 | the posted request is non-streaming, marks a new thread exactly when no id is given, and goes to the model's endpoint; the server's answer or error reaches the caller unchanged |
| Api.Streamed | src/services/api.ts:59-95 | a network error, a non-ok status (`HTTP error! status: N`) or a null body rejects with no callback; otherwise the reads are decoded with the data line ended at any JavaScript line terminator (CR, LF, U+2028, U+2029); the promise resolves exactly when the body was read and either ended or delivered a completion |
| Api.SendMessageStream | src/services/api.ts:36-153 | the request is the streaming one; the callbacks made and the rejection are those of the `Streamed` specification, for every sequence of reads |
| Api.ProcessRead | src/services/api.ts:97-109 | after a read the buffer is the text after the last `"\n\n"` of old buffer plus read, and holds no separator; the text before it is exactly the complete fragments, each handed to the decoder once, in order |
| Api.ProcessMessages | src/services/api.ts:109-147 | handling the fragments one by one gives the same decoder state and callbacks as the fragment-batch specification, with JavaScript's line terminators |
| Api.ProcessMessage | src/services/api.ts:110-146 | one fragment updates the state and calls back exactly as the one-fragment specification says, its data line ending at the first CR, LF, U+2028 or U+2029 |
| Api.ProcessPayload | src/services/api.ts:122-143 | a parsed frame latches, reports and completes exactly as the payload specification says |
| Api.ThreadsQuery | src/services/api.ts:170-174 | the query holds exactly `user_id` (the fixed test user), `limit` and `offset`, each non-empty |
| Api.GetThreads | src/services/api.ts:167-181 | the call goes to `/api/threads` with that query; the threads come back on success, and an empty list on any failure |
| Api.GetThread | src/services/api.ts:184-193 | the call goes to `/api/threads/<id>` with no query; the thread or the error is passed through |
| Api.DeleteThread | src/services/api.ts:196-209 | the call goes to `/api/threads/<id>` with the test user; the result is true exactly on status 200, and a failure is rethrown |
| Api.HealthCheck | src/services/api.ts:156-164 | the result is true exactly when the health endpoint answered 200, and false on any failure |
| Api.ErrorPolicy | src/services/api.ts:177-207 | on failure the thread list is empty, single-thread reads and deletes rethrow, and the health check is false |
| SseSplit.SplitJoin | src/services/api.ts:105 | joining the split pieces with `"\n\n"` gives back the text |
| SseSplit.SplitPartsHaveNoSeparator | src/services/api.ts:105 | no piece of a split holds `"\n\n"` |
| SseSplit.SplitAppend | src/services/api.ts:102-107 | splitting `x + y` gives the complete fragments of `x` followed by the split of what `x` left over plus `y` |
| SseSplit.FragmentsAppend | src/services/api.ts:102-107 | fragments and leftover of a concatenation follow from the leftover of its first part, so reading in two steps equals reading at once |
| SseSplit.RemainderFollowsLastSeparator | src/services/api.ts:107 | the kept buffer holds no separator and is exactly the text after the last separator, or the whole text when there is none |
| SseSplit.UnseparatedIsRemainder | src/services/api.ts:105-107 | a text with no separator splits into itself alone |
| SseSplit.SplitAfterLine | src/services/api.ts:105 | a line without line feeds followed by the separator is split off as one piece |
| SseSplit.Split | src/services/api.ts:105 | there is always at least one piece; `SplitJoin` and `SplitPartsHaveNoSeparator` show the pieces rejoin to the text and hold no separator |
| SseSplit.Fragments | src/services/api.ts:105-107 | the pieces before the last one, which the client hands on as complete messages |
| SseSplit.Remainder | src/services/api.ts:107 | the last piece, kept as the buffer; `RemainderFollowsLastSeparator` shows it holds no separator and is the text after the last one |
| SseDecoder.LineEnd | src/services/api.ts:113 | the first line ends at the first line break, and holds none |
| SseDecoder.DataLine | src/services/api.ts:113 | a captured `data:` value is non-empty and holds no line break |
| SseDecoder.Apply | src/services/api.ts:122-138 | a parsed frame sets `isDone` exactly when it or the decoder is done; a held thread id is kept and an unset one takes the frame's; every callback carries the resulting id |
| SseDecoder.Step | src/services/api.ts:110-146 | one fragment never clears `isDone`, never replaces a held thread id, and makes at most two callbacks |
| SseDecoder.Batch | src/services/api.ts:109-147 | over the fragments of one read, `isDone` is never cleared, a held thread id is never replaced, and at most two callbacks are made per fragment |
| SseDecoder.Run | src/services/api.ts:87-148 | the read loop over the reads, then the end of the stream (one completion callback) or the read failure; its properties are stated by `RunMatchesWhole`, `RunSettles` and `BoundaryIndependence` |
| SseDecoder.SkippedFragments | src/services/api.ts:110-146 | a blank fragment, one with no data line, or one whose JSON does not parse makes no callback and leaves the state alone |
| SseDecoder.ErrorFieldIgnored | src/services/api.ts:140-146 | an `error` field changes nothing, since its throw is caught per frame; an error-only frame makes no callback |
| SseDecoder.StepCompletion | src/services/api.ts:134-138 | one fragment sets `isDone` exactly when it makes a completion callback |
| SseDecoder.BatchCompletion | src/services/api.ts:109-147 | over a batch, `isDone` ends set exactly when a completion callback was made |
| SseDecoder.BatchKeepsDone | src/services/api.ts:134-138 | once done, the decoder stays done through the rest of the batch |
| SseDecoder.BatchAppend | src/services/api.ts:109-147 | handling two runs of fragments in turn equals handling their concatenation |
| SseDecoder.RunMatchesWhole | src/services/api.ts:87-148 | the callbacks of the read loop are a prefix of those of decoding the whole concatenated text, and agree with them up to the first completion |
| SseDecoder.BoundaryIndependence | src/services/api.ts:83-107 | two cuttings of the same text into reads give the same callbacks up to and including the first completion |
| SseDecoder.EndedStreamCompletes | src/services/api.ts:90-94 | a stream that ends resolves and has made a completion callback |
| SseDecoder.RunSettles | src/services/api.ts:87-152 | the promise rejects exactly when a read fails before any completion |
| SseDecoder.CompletedRunIsWhole | src/services/api.ts:87-148 | when the whole text completes only at its last callback, every cutting makes exactly those callbacks and resolves |
| SseDecoder.IncompleteRunIsWhole | src/services/api.ts:87-152 | when decoding the whole text makes no completion and the reads fail, every cutting makes exactly those callbacks and rejects with the read's reason |
| SseDecoder.RunFailureIsRead | src/services/api.ts:149-152 | the promise only ever rejects with the reason a read failed with |
| SseDecoder.StepLatch | src/services/api.ts:122-131 | every callback of a fragment carries the latched id, and an id once set never changes |
| SseDecoder.BatchLatch | src/services/api.ts:122-125 | over a batch the reported id changes at most once, from unset, and a caller's id is carried by every callback |
| SseDecoder.RunLatch | src/services/api.ts:81-125 | over the whole stream the reported thread id changes at most once, and a caller's id is never replaced |
| JsText.TrimFacts | src/services/api.ts:110 | `trim` gives the empty string exactly for blank text, and leaves a text that starts and ends with non-whitespace alone |
| JsText.TrimStartFacts | src/services/api.ts:117 | the start-trimmed text is a suffix, what was cut is whitespace, and it starts with non-whitespace |
| JsText.TrimEndFacts | src/services/api.ts:117 | the end-trimmed text is a prefix, what was cut is whitespace, and it ends with non-whitespace |
| JsText.Trim | src/services/api.ts:110 | `String.prototype.trim`: the end-trim of the start-trim; its properties are stated by `TrimFacts` |
| JsText.TrimStart | src/services/api.ts:110 | the text from its first non-whitespace character on; its properties are stated by `TrimStartFacts` |
| JsText.TrimEnd | src/services/api.ts:110 | the text up to its last non-whitespace character; its properties are stated by `TrimEndFacts` |
| FrameCodec.ParsePayloadInvertsEncoding | src/services/api.ts:120 | `JSON.parse` of `JSON.stringify` of any frame object gives the object back |
| FrameCodec.EncodedPayloadAvoids | src/app/api/openai/route.ts:34-44 | an encoded frame holds a non-printable character only where one of its strings does, so it never holds a raw line feed |
| FrameCodec.CodecSatisfiesLaws | src/app/api/openai/route.ts:34-44 | stringify and parse on frame objects satisfy the codec laws: round trip, brace-wrapped, and line breaks only from the strings |
| FrameCodec.EncodePayload | src/app/api/openai/route.ts:34-44 | `JSON.stringify` of a frame object is braced; `ParsePayloadInvertsEncoding` shows `ParsePayload` gives the object back |
| FrameCodec.ParsePayload | src/services/api.ts:117-120 | `JSON.parse` of a flat frame object, `None` where it would throw; its inverse law is `ParsePayloadInvertsEncoding` |
| FrameCodec.EscapeChar | src/app/api/openai/route.ts:39 | `JSON.stringify`'s escaping of one string character: the quote, the backslash and every control character are escaped (short forms for backspace, form feed, LF, CR and tab, `\u00XX` for the rest); every other character, U+2028 and U+2029 included, is copied as it is |
| FrameCodec.Escape | src/app/api/openai/route.ts:34-44 | the escaping of a whole string, character by character; `ParseQuotedBody` shows `JSON.parse` reads it back and `EscapeAvoids` that it holds no control character, so no CR or LF |
| OpenAiRoute.ThreadIdFor | src/app/api/openai/route.ts:16 | the id is never empty: the request's id when given, otherwise `openai-` followed by digits |
| OpenAiRoute.SystemPromptFor | src/app/api/openai/route.ts:24 | the prompt is never empty: the request's prompt when given, otherwise the default |
| OpenAiRoute.Contents | src/app/api/openai/route.ts:37-38 | only non-empty delta contents become chunks |
| OpenAiRoute.ContentsSnoc | src/app/api/openai/route.ts:36-41 | a new delta adds its content at the end exactly when it is non-empty |
| OpenAiRoute.EmitFrames | src/app/api/openai/route.ts:31-47 | the frames enqueued are exactly those of the thread-id payload and one chunk payload per non-empty delta, in upstream order, followed by the done payload when the iteration ends and by nothing when it throws |
| OpenAiRoute.ChunkFramesAreFrames | src/app/api/openai/route.ts:36-41 | the loop's frames are one chunk frame per non-empty delta, in upstream order |
| OpenAiRoute.EmittedFrames | src/app/api/openai/route.ts:34-44 | the thread-id frame, the chunk frames and the done frame together are the frames of the stream's payloads |
| OpenAiRoute.StreamShape | src/app/api/openai/route.ts:34-44 | the first payload carries the thread id, each chunk payload holds its chunk in order, and exactly one payload is `done`, the last |
| OpenAiRoute.Frame | src/app/api/openai/route.ts:34-44 | one event on the wire: `data: `, the encoded object and the blank-line separator |
| OpenAiRoute.Frames | src/app/api/openai/route.ts:34-44 | the events for the objects, one each and in order; `FramesAppend` shows it distributes over concatenation |
| OpenAiRoute.StreamPayloads | src/app/api/openai/route.ts:34-44 | the objects a whole stream carries; `StreamShape` shows the thread id comes first, the chunks follow in order, and only the last signals `done` |
| OpenAiRoute.AbortedPayloads | src/app/api/openai/route.ts:34-41 | the objects a stream carries when the upstream iteration throws: the thread id and the chunks so far, with no `done` |
| OpenAiRoute.ChunkPayloads | src/app/api/openai/route.ts:37-40 | one `{ chunk }` object per chunk, in order; `ChunkPayloadsShape` and `ChunkPayloadsAppend` state its length, its entries and how it splits |
| OpenAiRoute.ChunkFrames | src/app/api/openai/route.ts:36-41 | the frames the loop has enqueued after the deltas; `ChunkFramesAreFrames` shows they are one chunk frame per non-empty delta |
| OpenAiRoute.Post | src/app/api/openai/route.ts:10-80 | the completion is asked with the defaulted prompt; a bad body or a failure creating the completion answers 500 `Failed to process request`; a stream request answers a 200 event stream, whole when the upstream iteration ends and cut before `done`, with the thrown reason, when it throws; a plain request answers `{response, thread_id}` with `''` for no content, or 500 when it fails |
| ThreadsRoute.BaseUrl | src/app/api/threads/route.ts:5 | the base URL is the configured one when set, otherwise a non-empty default |
| ThreadsRoute.Forward | src/app/api/threads/route.ts:14-38 | nothing is forwarded exactly when `user_id` is missing or empty; otherwise the call goes to `base/v0/threads` with the user, `limit` defaulting to `50` and `offset` to `0` |
| ThreadsRoute.Classify | src/app/api/threads/route.ts:48-74 | an upstream error status is kept with its message or `Error from SoulGraph API`; no response gives 503; anything else gives 500 with the message or `Unknown error` |
| ThreadsRoute.OrDefault | src/app/api/threads/route.ts:16-17 | `value || fallback` on strings: an empty value gives the fallback, any other value is kept; `Forward` and `Classify` use it for `limit`, `offset` and the error texts at lines 55 and 71 |
| ThreadsRoute.Get | src/app/api/threads/route.ts:11-75 | a missing user gives 400 `user_id is required` with no upstream call; success passes the body through; failures are classified |
| ThreadsRoute.PassThroughExactly | src/app/api/threads/route.ts:43 | the upstream body is passed through exactly when a user is given and upstream succeeds, and every error reply has a message |
| ThreadsRoute.StatusOrigin | src/app/api/threads/route.ts:22-57 | a 4xx reply is either the missing-user 400 or the status upstream itself answered |
| ThreadsRoute.ClientQueryForwarded | src/app/api/threads/route.ts:32-38 | the client's thread-list query is forwarded unchanged to `base/v0/threads` |
| ThreadsRoute.ListingThroughRoute | src/services/api.ts:167-181 | listing threads through the route gives upstream's threads, or an empty list on any failure |
| ChatComponent.Feed | src/components/Chat.tsx:175-210 | the accumulated response grows by the chunk; with no open message one assistant message holding the chunk is appended; otherwise the length and every message but the last are kept, and the last becomes the whole accumulated response when it is the assistant's and is kept otherwise; a completion closes the message |
| ChatComponent.AccumulationLaw | src/components/Chat.tsx:175-199 | after non-completing chunks from a fresh send, exactly one assistant message was added, holding their concatenation, and it is still open |
| ChatComponent.CompletionLaw | src/components/Chat.tsx:205-210 | when the last callback completes, that message holds the concatenation and is closed |
| ChatComponent.StreamedReplyAssembled | src/components/Chat.tsx:159-211 | the callbacks of a whole stream leave one closed assistant message holding all chunks in order |
| StreamRoundTrip.ChunkEventsShape | src/services/api.ts:127-132 | one non-completing callback per chunk, in order, each with the latched id |
| ChatComponent.ChunksOfChunkEvents | src/components/Chat.tsx:175 | the chunks reported by a whole stream concatenate to the reply |
| ChatComponent.FeedAllKeepsPrefix | src/components/Chat.tsx:188-197 | chunk callbacks never change the messages before the open one |
| ChatComponent.FeedAll | src/components/Chat.tsx:159-211 | the chunk callbacks applied in order; `FeedAllKeepsPrefix`, `AccumulationLaw` and `CompletionLaw` state what they leave |
| ChatComponent.AnnouncedIds | src/components/Chat.tsx:170-172 | `onThreadCreated` is called only when the chat has no thread and a callback is registered, and only with non-empty ids the stream reported |
| ChatComponent.OneThreadAnnounced | src/components/Chat.tsx:170-172 | with the decoder's latch, every announcement names the same thread |
| ChatComponent.Announce | src/components/Chat.tsx:170-172 | the `onThreadCreated` call of one callback: made only for a non-empty id, while the chat has no thread and a handler was given |
| ChatComponent.Announcements | src/components/Chat.tsx:170-172 | the `onThreadCreated` calls of the callbacks, in order; `AnnouncedIds` and `AnnouncesEveryId` state them |
| ChatComponent.CarriedIds | src/components/Chat.tsx:170-172 | the non-empty ids the callbacks carry, in order |
| ChatComponent.AnnouncesEveryId | src/components/Chat.tsx:170-172 | while the chat has no thread and a handler was given, the parent is told every carried id, once per callback that carries one, in order |
| ChatComponent.Callbacks | src/components/Chat.tsx:159-211 | the session after the callbacks: the transcript fed each chunk, the count and the received chunks grown by one per callback, and the announcements appended |
| ChatComponent.Answered | src/components/Chat.tsx:362-376 | the plain reply appends one assistant message and announces its thread id when the chat has none; a failure shows `Failed to send message: ` and the reason |
| ChatComponent.StreamedSend | src/components/Chat.tsx:323-356 | the callbacks of the stream, then, after a rejection, the error `Error: ` and the reason followed by the fallback request's outcome |
| ChatComponent.AfterSend | src/components/Chat.tsx:296-385 | a send that goes ahead: the user message appended, then the streaming or the plain branch |
| ChatComponent.SendCalls | src/components/Chat.tsx:323-376 | the requests a send makes: one plain request, one streaming request, or a streaming request followed by the fallback when the stream rejects |
| ChatComponent.Reaction | src/components/Chat.tsx:82-104 | the messages are replaced exactly when the payload has both rows with message arrays and the new one is strictly longer; the replacement is the new, non-empty list |
| ChatComponent.Load | src/components/Chat.tsx:214-293 | a `test-` id gives the three mock messages; otherwise a database row with a message array wins; otherwise the API's array or an empty list, with `Failed to load chat thread` when the API fails |
| ChatComponent.SendErrorShown | src/components/Chat.tsx:321-384 | the error is empty exactly when the stream (or the plain request) succeeded; one request is made, or two (the stream and one fallback) when the stream failed |
| ChatComponent.ChunkCountAgrees | src/components/Chat.tsx:166-167 | after a send the chunk count equals the number of received chunks, one per callback |
| ChatComponent.SendKeepsHistory | src/components/Chat.tsx:312-356 | whatever the network does, the earlier messages and the user's untrimmed message stay as the head of the list |
| ChatComponent.Texts | src/components/Chat.tsx:167 | `receivedChunks` as the callbacks leave it: one entry per callback, its chunk text, in order |
| ChatComponent.Listed | src/components/Chat.tsx:84-85 | `row.messages || []`: a missing value reads as no messages, an array as its messages, any other value as not an array, so `Reaction` does not replace the messages and the handler re-fetches the thread |
| ChatComponent.ChunkStatus | src/components/Chat.tsx:202 | a completion shows `Complete`; any other callback shows `Receiving (n chunks)` with the count of the render the callback belongs to, not the count after it |
| ChatComponent.Subscribes | src/components/Chat.tsx:70-74 | a thread gets a realtime channel exactly when its id is non-empty and does not start with `test-`; `Chat.ThreadEffect` subscribes by it |
| ChatComponent.Sends | src/components/Chat.tsx:299 | a send goes ahead exactly when the trimmed input is non-empty and no request is in flight; `Chat.HandleSendMessage` changes nothing otherwise |
| ChatComponent.Sent | src/components/Chat.tsx:306-312 | the earlier messages followed by the untrimmed input as a user message, with the accumulated response empty and no assistant message open |
| ChatComponent.Begun | src/components/Chat.tsx:301-319 | the transcript of `Sent`, chunk count 0, no received chunks, the error cleared and the announced ids kept; `Chat.BeginSend` reaches it |
| ChatComponent.RouteStreamSettles | src/services/api.ts:87-148 | when the route's thread id and deltas hold no U+2028 or U+2029, reading the route's stream with the decoder as written, however cut, resolves with one callback per non-empty delta, in order, and one final completion, all with the route's id |
| ChatComponent.RouteStreamAborts | src/app/api/openai/route.ts:36-41 | when the route's thread id and deltas hold no U+2028 or U+2029 and the completion service throws partway, reading the route's stream with the decoder as written, however cut, reports the chunks sent so far, makes no completion, rejects with the read failure, and the send makes its fallback request |
| ChatComponent.StreamedSendShowsReply | src/components/Chat.tsx:296-385 | under the same condition on U+2028 and U+2029, a send over the route's stream shows the user message and then one closed assistant message with the whole reply, no error, and makes no fallback request |
| ChatComponent.SettledSendShowsReply | src/components/Chat.tsx:296-385 | a send whose stream makes the expected callbacks shows the user message and one closed assistant message holding the reply |
| ChatComponent.Chat.constructor | src/components/Chat.tsx:14-33 | the initial state: no messages, empty input, not loading, no error, streaming on, model `soulgraph`, no open message and no channel |
| ChatComponent.Chat.HandleStreamChunk | src/components/Chat.tsx:159-211 | the new state is the one-callback specification; the status shows `Complete` or the stale chunk count; a completion clears loading and typing |
| ChatComponent.Chat.Tally | src/components/Chat.tsx:166-172 | the chunk is counted and recorded, and the callback's id is announced exactly as `Announce` says |
| ChatComponent.Chat.Reassemble | src/components/Chat.tsx:175-199 | the transcript after a chunk is the reassembly specification `Feed` |
| ChatComponent.Chat.LoadThreadMessages | src/components/Chat.tsx:214-293 | messages and error become those of the load-priority specification, and loading is cleared |
| ChatComponent.Chat.Unsubscribe | src/components/Chat.tsx:63-68 | the held channel is unsubscribed and the ref cleared, leaving no subscription |
| ChatComponent.Chat.ThreadEffect | src/components/Chat.tsx:61-121 | the old channel is released first; a non-`test-` thread is subscribed; no thread clears the messages; a thread is loaded by priority |
| ChatComponent.Chat.EffectCleanup | src/components/Chat.tsx:124-131 | cleanup leaves no channel and no subscription |
| ChatComponent.Chat.OnRealtimePayload | src/components/Chat.tsx:78-108 | a payload that grows the message array replaces the messages; any other payload reloads the thread |
| ChatComponent.Chat.SendPlain | src/components/Chat.tsx:359-376 | one plain request with the content, thread and model; the reply is appended as one assistant message, or the failure is shown |
| ChatComponent.Chat.ReceiveStream | src/components/Chat.tsx:323-333 | one streaming request; the state after it is that of making exactly the decoded callbacks in order; loading and typing stay on exactly when no callback completed; the status is that of the last callback, or unchanged when there was none |
| ChatComponent.Chat.HandleChunks | src/components/Chat.tsx:159-211 | handling the callbacks in order leaves the session of `Callbacks`; loading and typing end off exactly when some callback completed; the status is that of the last callback |
| ChatComponent.Chat.SendStreaming | src/components/Chat.tsx:323-356 | a streaming send, and after a stream failure exactly one fallback request with the stream's error shown; loading and typing stay on exactly when no callback completed; the status is the fallback text after a failure, otherwise that of the last callback |
| ChatComponent.Chat.FallBack | src/components/Chat.tsx:334-355 | the stream's error is shown, the status is the fallback text, and the session is that of one plain request |
| ChatComponent.Chat.BeginSend | src/components/Chat.tsx:301-319 | the user's untrimmed input is appended and cleared; loading is set; the accumulator, open message and chunk counters are reset |
| ChatComponent.Chat.Deliver | src/components/Chat.tsx:321-384 | streaming or plain delivery as selected; loading and status are cleared at the end |
| ChatComponent.Chat.Send | src/components/Chat.tsx:301-384 | a send from the current input is the send specification, ending with loading and status cleared |
| ChatComponent.Chat.HandleSendMessage | src/components/Chat.tsx:296-385 | blank input or a request in flight changes nothing and sends nothing; otherwise the state and requests are those of the send specification |
| ChatComponent.AtMostOneChannel | src/components/Chat.tsx:63-131 | the chat holds at most one subscription, and the channel ref is it |
| StreamRoundTrip.RoundTrip | src/app/api/openai/route.ts:34-44 | for any codec obeying the laws and any line-break set, when the id and deltas avoid its visible characters, every cutting of the route's stream resolves with one callback per non-empty delta and one final completion, all with the route's id |
| StreamRoundTrip.EventStreamRoundTrip | src/services/api.ts:102-138 | with the event-stream line breaks, the same holds for every thread id and every delta |
| StreamRoundTrip.JsRoundTrip | src/services/api.ts:113 | with JavaScript's line terminators, as the client splits its buffer, every cutting of the route's stream resolves with every chunk and one completion, provided the thread id and the deltas hold no U+2028 or U+2029 |
| StreamRoundTrip.AbortedRoundTrip | src/app/api/openai/route.ts:36-41 | for any codec obeying the laws and any line-break set, when the id and deltas avoid its visible characters, a stream cut short by an upstream failure decodes, however cut, to one callback per non-empty delta so far, no completion, and a rejection with the read failure |
| StreamRoundTrip.LineSeparatorDropsChunk | src/services/api.ts:113 | with JavaScript's line terminators, the frame of a chunk holding U+2028 or U+2029 anywhere, whatever else it holds, makes no callback and leaves the decoder as it was |
| EventLog.Push | src/examples/SupabaseRealTimeExample.tsx:243-245 | the new event is first, the log holds at most ten, and the rest is the head of the old log |
| EventLog.PushAllBounded | src/examples/SupabaseRealTimeExample.tsx:244 | no sequence of pushes makes the log longer than ten |
| EventLog.PushAllNewestFirst | src/examples/SupabaseRealTimeExample.tsx:244 | after any pushes the log is the new events newest first, then the old log, cut at ten |
| EventLog.LatestTen | src/components/SupabaseRealTimeDemo.tsx:58 | from an empty log, the log is the last ten events in reverse arrival order |
| RealtimeExample.Merged | src/examples/SupabaseRealTimeExample.tsx:146-150 | length and order are kept; threads with another id are untouched; matching threads take the row's fields and keep their others |
| RealtimeExample.MergedKeepsIds | src/examples/SupabaseRealTimeExample.tsx:146-150 | merging never changes a thread's id |
| RealtimeExample.MergedIdempotent | src/examples/SupabaseRealTimeExample.tsx:146-150 | applying the same update twice is the same as once |
| RealtimeExample.Removed | src/examples/SupabaseRealTimeExample.tsx:160-162 | a thread stays exactly when it was there and its id differs from the deleted one |
| RealtimeExample.SameValue | src/examples/SupabaseRealTimeExample.tsx:148-161 | `===` between two column values: strings by content, null with null, missing with missing, and never two arrays, which are distinct objects; `Merged` and `Removed` match rows by it |
| RealtimeExample.IsSelected | src/examples/SupabaseRealTimeExample.tsx:153-165 | `id === selectedThreadId` for a selection that is a string or null: a string id matches the same string, a null id matches no selection, anything else matches nothing |
| RealtimeExample.RemovedAppend | src/examples/SupabaseRealTimeExample.tsx:160-162 | removal keeps the order of the threads that stay |
| RealtimeExample.RemovedIdempotent | src/examples/SupabaseRealTimeExample.tsx:160-162 | deleting the same id twice is the same as once |
| RealtimeExample.HandleAllThreads | src/examples/SupabaseRealTimeExample.tsx:128-170 | every change logs one `thread_change` event with the new or old id; an INSERT prepends its row; an unknown event type changes nothing else |
| RealtimeExample.Updated | src/examples/SupabaseRealTimeExample.tsx:143-156 | an UPDATE merges its row; the messages are replaced only when the row is the selected thread and carries a message array |
| RealtimeExample.Deleted | src/examples/SupabaseRealTimeExample.tsx:157-168 | a DELETE removes the id's threads, and the selection is cleared exactly when it was that thread |
| RealtimeExample.HandleThread | src/examples/SupabaseRealTimeExample.tsx:198-216 | the thread list is untouched and one `specific_thread_change` event is logged; a DELETE clears the selection; only an UPDATE carrying messages changes them |
| RealtimeExample.StaleHandleAllThreads | src/examples/SupabaseRealTimeExample.tsx:117-179 | the all-threads handler as written: the handler run with the selection captured at mount, which is null |
| RealtimeExample.HandlerKeepsSelectionListed | src/examples/SupabaseRealTimeExample.tsx:128-170 | with the current selection, the all-threads handler never leaves it pointing at a thread missing from the list |
| RealtimeExample.StaleSelectionOutlivesDelete | src/examples/SupabaseRealTimeExample.tsx:165 | with the selection captured at mount, deleting the selected thread leaves the selection pointing at a removed thread |
| RealtimeExample.SelectedUpdateShown | src/examples/SupabaseRealTimeExample.tsx:153-154 | run with the current selection (the corrected handler), an UPDATE of the selected thread carrying messages shows them |
| RealtimeExample.StaleUpdateNotShown | src/examples/SupabaseRealTimeExample.tsx:153-154 | as written, an UPDATE on the all-threads channel of a thread with a string id merges the row but never changes the shown messages |
| RealtimeExample.ThreadUpdateShown | src/examples/SupabaseRealTimeExample.tsx:208-212 | an UPDATE on the selected thread's own channel carrying a `messages` array shows exactly those messages and keeps the selection and the list |
| RealtimeExample.StaleDeleteKeepsSelection | src/examples/SupabaseRealTimeExample.tsx:157-168 | as written, a DELETE of the selected thread on the all-threads channel keeps the selection, while the same DELETE on the thread's own channel clears it |
| RealtimeExample.ThreadHandlerKeepsSelectionListed | src/examples/SupabaseRealTimeExample.tsx:207-216 | the per-thread handler never leaves the selection pointing at an unlisted thread |
| RealtimeExample.SendWrites | src/examples/SupabaseRealTimeExample.tsx:279-324 | nothing is written exactly when there is no selection or the text is blank; otherwise the messages plus the trimmed user message, and after success the same plus the automated reply, for the selected thread |
| RealtimeExample.SentMessageEchoed | src/examples/SupabaseRealTimeExample.tsx:286-298 | when the write comes back as an UPDATE on the thread's channel, the shown messages are the old ones plus the trimmed user message |
| RealtimeExample.Example.constructor | src/examples/SupabaseRealTimeExample.tsx:30-39 | no threads, messages, selection or events, empty input, and no channel |
| RealtimeExample.Example.Mount | src/examples/SupabaseRealTimeExample.tsx:42-93 | the fetched threads (or none for no data) replace the list, a failed fetch keeps it, and the all-threads channel is held when subscribed |
| RealtimeExample.Example.SelectionEffect | src/examples/SupabaseRealTimeExample.tsx:56-73 | the old thread channel is released first; a selection fetches its messages and subscribes; no selection clears the messages |
| RealtimeExample.Example.OpenThread | src/examples/SupabaseRealTimeExample.tsx:96-114 | the thread's messages (or none) are shown, a failed fetch keeps the old ones, and the thread's channel is held when subscribed |
| RealtimeExample.Example.ReleaseThreadChannel | src/examples/SupabaseRealTimeExample.tsx:58-62 | the thread channel is closed and its ref cleared; only the all-threads channel may stay open |
| RealtimeExample.Example.OnAllThreadsChange | src/examples/SupabaseRealTimeExample.tsx:128-170 | the new screen is the all-threads handler applied with the selection captured at mount, which is null, as the handler created on mount sees it |
| RealtimeExample.Example.UpdateRow | src/examples/SupabaseRealTimeExample.tsx:143-156 | the new screen is the UPDATE specification, comparing ids with the mount-time selection |
| RealtimeExample.Example.DeleteRows | src/examples/SupabaseRealTimeExample.tsx:157-168 | the new screen is the DELETE specification, comparing ids with the mount-time selection |
| RealtimeExample.Example.OnThreadChange | src/examples/SupabaseRealTimeExample.tsx:198-216 | the new screen is the per-thread handler's |
| RealtimeExample.Example.SendMessage | src/examples/SupabaseRealTimeExample.tsx:279-329 | the writes are those of the send specification, and the input is cleared exactly when the first write succeeded |
| RealtimeExample.Example.DeleteThread | src/examples/SupabaseRealTimeExample.tsx:332-352 | a successful delete of the selected thread clears the selection; a failed delete or another thread leaves it |
| RealtimeExample.Example.CreateThread | src/examples/SupabaseRealTimeExample.tsx:248-277 | the first row the insert returns becomes the selection; an error result, a throw or no row leaves the selection, and nothing else changes |
| RealtimeExample.Example.CleanupSubscriptions | src/examples/SupabaseRealTimeExample.tsx:228-240 | both channels are closed and both refs cleared |
| RealtimeExample.ChannelsHeld | src/examples/SupabaseRealTimeExample.tsx:58-69 | at most one all-threads channel and one channel per thread are open, and an open thread channel is the one the ref holds |
| RealtimeDemo.Reported | src/components/SupabaseRealTimeDemo.tsx:61-71 | the status is stored verbatim; `CHANNEL_ERROR` sets `Failed to subscribe to real-time updates`; other statuses keep the error |
| RealtimeDemo.InsertError | src/components/SupabaseRealTimeDemo.tsx:93-101 | a successful insert leaves the error; otherwise the error holds the message after a prefix, and the prefix is `Insert error: ` exactly when the call returned an error rather than threw |
| RealtimeDemo.Demo.constructor | src/components/SupabaseRealTimeDemo.tsx:14-17 | no events, status `disconnected`, no error, no channel |
| RealtimeDemo.Demo.Setup | src/components/SupabaseRealTimeDemo.tsx:33-77 | the status becomes `connecting` and a channel is held; when setup throws, the status is `error` and the message is recorded |
| RealtimeDemo.Demo.OnPayload | src/components/SupabaseRealTimeDemo.tsx:46-58 | one event with the payload's type and table `chat_threads` goes first in the bounded log |
| RealtimeDemo.Demo.OnStatus | src/components/SupabaseRealTimeDemo.tsx:61-71 | status and error are those of `Reported` |
| RealtimeDemo.Demo.TestInsert | src/components/SupabaseRealTimeDemo.tsx:79-103 | the error becomes that of `InsertError` for the call's outcome; nothing else changes |
| RealtimeDemo.Demo.Release | src/components/SupabaseRealTimeDemo.tsx:107-110 | the held channel is closed and the ref cleared |
| RealtimeDemo.Demo.Reconnect | src/components/SupabaseRealTimeDemo.tsx:105-114 | the old channel is closed before a new one is set up, so at most one is open |
| RealtimeDemo.Demo.Unmount | src/components/SupabaseRealTimeDemo.tsx:24-30 | unmounting leaves no channel open |
| RealtimeDemo.DemoLogShowsLatest | src/components/SupabaseRealTimeDemo.tsx:47-58 | after any payloads the log holds the latest ten, newest first, each tagged with its type and table, and its head is the latest |
| RealtimeDemo.Tagged | src/components/SupabaseRealTimeDemo.tsx:50-56 | one log event per payload, in order, each with the payload's type and the table `chat_threads` |

## Left out

- I/O is not modelled. The network, the database and the OpenAI SDK are
  parameters: fetch outcomes, read sequences, query results and deltas.
  So are `Date.now` (the `nowMillis` parameter) and whether a
  subscription succeeds.
- `Math.random` channel names, event ids and timestamps are not modelled.
- The timestamp-normalising `map`s are not modelled.
- `console` and debug output, and the `rawChunk` argument, are not
  modelled.
- Message metadata (`id`, `timestamp`) and `ChatThread.metadata` are not
  modelled.
- JSX rendering, scrolling, focus, the typing timer and the settings panel
  are left out.
- The "Test Real-time Updates" and connection-test buttons are left out.
- The rows that `createThread` and `testInsert` write reach the modelled
  state only as change events. Their direct effects are modelled by
  RealtimeExample.Example.CreateThread (the new selection) and
  RealtimeDemo.Demo.TestInsert (the error shown). The insert itself, its
  title built from the clock and its seed messages are not.
- `TextDecoder` is not modelled. Reads are already strings.
- `JSON.stringify`/`JSON.parse` are modelled only for the flat frame
  objects the route sends:
  - string and boolean members;
  - `ParsePayload` rejects whitespace, nesting and numbers, which the
    route never emits.
  - The decoder itself takes any parse function. Frame fields other than
    `thread_id`, `chunk`, `done` and `error` are dropped.
- Api.SendMessageStream: callbacks that throw are not modelled. Every
  `onChunk` returns normally.
- The interleaving of React updates with the asynchronous stream is not
  modelled. State updates happen in order.
- ChatComponent.Feed: the `setMessages` updater at
  src/components/Chat.tsx:188-198 reads `currentResponseRef.current` when
  React runs it, not when the callback runs. A chunk that follows `done`
  in the same read can therefore put its text into the message `done`
  already closed, where `Feed` leaves that message with the text up to
  `done`. The route never sends a chunk after `done`, so no round-trip
  lemma is affected.
- ChatComponent.Chat.HandleStreamChunk: the stale `chunkCount` in the
  status string is a parameter, `shownCount`, rather than a value
  derived from earlier renders.
- `trainMode` and model selection other than the fixed `soulgraph` model
  are left out. `Endpoint` still models the `openai` branch.
- JavaScript numbers (status codes, limits) are modelled as unbounded
  naturals.
- RealtimeExample.Updated: a truthy `messages` value that is not an array
  is not applied. Column values are strings, message arrays or null.
- RealtimeExample.HandleThread: the same holds for the per-thread handler
  (src/examples/SupabaseRealTimeExample.tsx:210). A truthy `messages`
  value that is not an array is not applied.
- ChatComponent.RouteStreamSettles and ChatComponent.StreamedSendShowsReply
  hold only when the thread id and the deltas contain no U+2028 or U+2029.
  With those characters the decoder as written drops chunks (see
  Findings).
- ChatComponent.RouteStreamAborts: holds only under the same condition.
  A delta holding U+2028 or U+2029 makes no callback, so the client then
  reports fewer than the chunks sent so far.
- The reason a client read fails with, when the route's stream breaks off,
  is a parameter. The value thrown upstream is not carried over the
  network.
- RealtimeExample.Example.Mount requires that no all-threads channel is
  held, and RealtimeDemo.Demo.Setup that no channel is held. The mount
  effect runs once, so the source never reaches these with a channel
  held.
- The all-threads channel's status callback (`setStatus`) in
  `SupabaseRealTimeExample.tsx` is not modelled.
- The per-thread channel's status callback is not modelled either. It
  only logs.
- `src/app/api/soulgraph/route.ts` is not part of this model. It is a
  fetch proxy that forwards the SoulGraph stream verbatim.
- The health route, the Supabase client wiring, `mockAuth.ts`,
  `Sidebar.tsx` and `setup-supabase.js` are not part of this model.
- OpenAiRoute.AbortedPayloads: when the `for await` loop throws, the
  model assumes every frame enqueued before the error reaches the client.
  An errored web stream drops the chunks still queued, so a client that
  has not read them yet may see only a prefix of these frames. The same
  assumption underlies OpenAiRoute.Post's aborted case and
  ChatComponent.RouteStreamAborts.
- Api.GetThreads: the default arguments `limit = 50` and `offset = 0`
  (src/services/api.ts:167) are not modelled; every call passes both.
  ThreadsRoute.ListingThroughRoute identifies `response.data.threads`
  with the upstream body.
- ThreadsRoute.Classify: an error response whose `data` is null would
  throw inside the catch block (src/app/api/threads/route.ts:55). That
  throw is not modelled; the error text then falls back to the default.
- FrameCodec.ApplyMember: a boolean `chunk` or `thread_id` member reads
  as "", where `JSON.parse` would pass the boolean through. The route
  never sends one.

## Findings

| source | as written | input that shows it | evidently intended | confidence | as-written member | corrected member |
|---|---|---|---|---|---|---|
| src/services/api.ts:113 | The regex `/^data: (.+)$/m` ends the data line at U+2028 and U+2029, JavaScript line terminators. `JSON.stringify` (src/app/api/openai/route.ts:39) leaves those characters unescaped. | A delta `a` U+2028 `b`. The captured text is `{"chunk":"a`, `JSON.parse` throws, and the chunk is silently dropped. | Every non-empty delta reaches the chat. This is what happens when data lines end only at CR and LF, as in the event-stream format. | not executed | StreamRoundTrip.LineSeparatorDropsChunk | StreamRoundTrip.EventStreamRoundTrip |
| src/examples/SupabaseRealTimeExample.tsx:153 | The all-threads handler is created once at mount. It compares against the `selectedThreadId` of that render, which is `null`. The same comparison appears at line 165. | Select thread `t` while the per-thread subscription fails (only the all-threads channel is held). Another client then deletes `t`. The DELETE arrives only on the all-threads channel (lines 157-167), which compares with the mount-time `null` and keeps `t` selected after it has left the list. On the same path an UPDATE of `t` (lines 153-154) never refreshes the messages. The component's own `deleteThread` (lines 345-347) and a per-thread DELETE (lines 213-215) do clear the selection. | The handler compares against the current selection. Then deleting the selected thread clears it, and the selection always names a listed thread. | not executed | RealtimeExample.StaleSelectionOutlivesDelete | RealtimeExample.HandlerKeepsSelectionListed |

The client loop in `Api`, the chat component and the class `Example`
are modelled as written:

- The decoder's data line ends at any JavaScript line terminator
  (`JsLineTerminators`).
- The all-threads handler compares with the selection captured at mount
  (`StaleHandleAllThreads`).

The corrected behaviour is modelled beside each one:

- `SseLineBreaks` ends the data line only at CR and LF.
  `EventStreamRoundTrip` proves that every chunk then arrives, whatever
  the thread id and the deltas.
- `HandleAllThreads` run with the current selection keeps the selection
  pointing into the list (`HandlerKeepsSelectionListed`).
