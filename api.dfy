/** The client's HTTP service (src/services/api.ts): request construction,
    endpoint choice, the streaming call with its event-stream decoder loop,
    and the thread calls with their error policies. What the network does is
    an input of each operation: the reply, or the reason the call threw. */
module Api {
  import opened Wrappers
  import opened JsText
  import opened SseSplit
  import opened FrameCodec
  import opened SseDecoder
  import opened ChatTypes

  const SoulGraphUrl: string := "/api/soulgraph"
  const OpenAiUrl: string := "/api/openai"
  const ThreadsUrl: string := "/api/threads"
  const TestUserId: string := "test-user-123"
  const FixedSystemPrompt: string := "You are a helpful assistant."
  const HttpErrorPrefix: string := "HTTP error! status: "
  const NullBodyMessage: string := "Response body is null"

  /** A request the client sends: where, the query parameters, the body. */
  datatype Call = Call(url: string, query: map<string, string>, body: Option<InferenceRequest>)

  /** The request object both send operations build; "" is an absent
      thread id. */
  function BuildRequest(message: string, threadId: string, stream: bool, model: string): (r: InferenceRequest)
    ensures r.newThread <==> threadId == ""
    ensures r.userId == TestUserId && r.systemPrompt == FixedSystemPrompt
    ensures r.message == message && r.threadId == threadId && r.stream == stream && r.model == model
  {
    InferenceRequest(message, TestUserId, threadId, threadId == "", FixedSystemPrompt, stream, model)
  }

  /** `model === 'openai' ? OPENAI_API_URL : SOULGRAPH_API_URL`. */
  function Endpoint(model: string): (url: string)
    ensures url == OpenAiUrl <==> model == "openai"
    ensures url == SoulGraphUrl <==> model != "openai"
  {
    if model == "openai" then OpenAiUrl else SoulGraphUrl
  }

  /** The post `sendMessageStream` makes. */
  function StreamCall(message: string, threadId: string, model: string): Call
  {
    Call(Endpoint(model), map[], Some(BuildRequest(message, threadId, true, model)))
  }

  /** The post `sendMessage` makes. */
  function MessageCall(message: string, threadId: string, model: string): Call
  {
    Call(Endpoint(model), map[], Some(BuildRequest(message, threadId, false, model)))
  }

  /** `sendMessage`: posts a non-streaming request and resolves with the
      reply body; a failed post is rethrown unchanged. */
  function SendMessage(message: string, threadId: string, model: string,
                       posted: Result<InferenceResponse, string>): (r: (Call, Result<InferenceResponse, string>))
    ensures r.0.body.Some? && !r.0.body.value.stream
    ensures r.0.body.value.newThread <==> threadId == ""
    ensures r.0.url == Endpoint(model) && r.0.body.value.message == message
    ensures r.1.Ok? <==> posted.Ok?
    ensures r.1 == posted
  {
    (MessageCall(message, threadId, model), posted)
  }

  // ---------------------------------------------------------------------
  // The streaming call

  /** What the reader yields: the decoded reads, then how it ends. */
  datatype Body = Body(received: seq<string>, ending: Ending)

  /** What `fetch` does: reject, or answer with a status and maybe a body. */
  datatype FetchOutcome =
    | NetworkError(reason: string)
    | Responded(ok: bool, status: nat, body: Option<Body>)

  /** How `sendMessageStream` settles: the `onChunk` calls in order and the
      reason the returned promise rejects with, if it does. A rejected fetch,
      a status that is not ok and a missing body reject before any callback;
      otherwise the reads are decoded as `Run` says, with the line
      terminators of a JavaScript regular expression. The promise resolves
      exactly when the response had a body and either the stream ended or
      a `done` frame arrived. */
  function Streamed(threadId: string, fetched: FetchOutcome, parse: string -> Option<Payload>): (s: Settlement)
    ensures fetched.NetworkError? ==> s == Settlement([], Some(fetched.reason))
    ensures fetched.Responded? && !fetched.ok ==>
      s == Settlement([], Some(HttpErrorPrefix + NatToDecimal(fetched.status)))
    ensures fetched.Responded? && fetched.ok && fetched.body.None? ==>
      s == Settlement([], Some(NullBodyMessage))
    ensures s.failure.None? <==>
      fetched.Responded? && fetched.ok && fetched.body.Some?
      && (fetched.body.value.ending.EndOfData? || Completes(s.events))
  {
    match fetched
    case NetworkError(reason) => Settlement([], Some(reason))
    case Responded(ok, status, body) =>
      if !ok then Settlement([], Some(HttpErrorPrefix + NatToDecimal(status)))
      else if body.None? then Settlement([], Some(NullBodyMessage))
      else
        RunSettles(Decoder(threadId, false), "", body.value.received, body.value.ending, JsLineTerminators, parse);
        Run(Decoder(threadId, false), "", body.value.received, body.value.ending, JsLineTerminators, parse)
  }

  /** `sendMessageStream`: posts the streaming request, then reads and
      decodes the body; `events` are the `onChunk` calls in order and
      `failure` the reason the returned promise rejects with. */
  method SendMessageStream(message: string, threadId: string, model: string,
                           fetched: FetchOutcome, parse: string -> Option<Payload>)
    returns (call: Call, events: seq<Event>, failure: Option<string>)
    ensures call == StreamCall(message, threadId, model)
    ensures Settlement(events, failure) == Streamed(threadId, fetched, parse)
  {
    call := StreamCall(message, threadId, model);
    events := [];
    if fetched.NetworkError? {
      return call, [], Some(fetched.reason);
    }
    if !fetched.ok {
      return call, [], Some(HttpErrorPrefix + NatToDecimal(fetched.status));
    }
    if fetched.body.None? {
      return call, [], Some(NullBodyMessage);
    }
    var received := fetched.body.value.received;
    var ending := fetched.body.value.ending;
    ghost var whole := Run(Decoder(threadId, false), "", received, ending, JsLineTerminators, parse);

    var receivedThreadId := threadId;
    var isDone := false;
    var buffer := "";
    var k := 0;
    failure := None;
    while !isDone
      invariant 0 <= k <= |received| && failure.None?
      invariant var rest := Run(Decoder(receivedThreadId, isDone), buffer, received[k..], ending, JsLineTerminators, parse);
        whole == Settlement(events + rest.events, rest.failure)
      decreases |received| - k
    {
      if k == |received| {
        if ending.EndOfData? {
          events := events + [Event("", true, receivedThreadId)];
        } else {
          failure := Some(ending.reason);
        }
        break;
      }
      assert received[k..][0] == received[k] && received[k..][1..] == received[k + 1..];
      ghost var before := events;
      ghost var batch := Batch(Decoder(receivedThreadId, isDone), Fragments(buffer + received[k]), JsLineTerminators, parse);
      var emitted;
      receivedThreadId, isDone, buffer, emitted := ProcessRead(receivedThreadId, isDone, buffer, received[k], parse);
      events := events + emitted;
      k := k + 1;
      AppendAssoc(before, batch.events,
        Run(Decoder(receivedThreadId, isDone), buffer, received[k..], ending, JsLineTerminators, parse).events);
    }
  }

  /** One read: append it to the carry-over, split at the separators, keep
      the last piece and handle the others in order. */
  method ProcessRead(threadId: string, isDone: bool, buffer: string, read: string, parse: string -> Option<Payload>)
    returns (threadId': string, isDone': bool, buffer': string, emitted: seq<Event>)
    ensures buffer' == Remainder(buffer + read) && !ContainsSeparator(buffer')
    ensures |Split(buffer + read)| == 1 ==> buffer' == buffer + read
    ensures |Split(buffer + read)| > 1 ==>
      buffer + read == Join(Fragments(buffer + read)) + Separator + buffer'
    ensures Batched(Decoder(threadId', isDone'), emitted)
      == Batch(Decoder(threadId, isDone), Fragments(buffer + read), JsLineTerminators, parse)
  {
    var text := buffer + read;
    var messages := Split(text);
    buffer' := messages[|messages| - 1];
    messages := messages[..|messages| - 1];
    RemainderFollowsLastSeparator(text);
    threadId', isDone', emitted := ProcessMessages(threadId, isDone, messages, parse);
  }

  /** The `for (const message of messages)` loop. */
  method ProcessMessages(threadId: string, isDone: bool, messages: seq<string>, parse: string -> Option<Payload>)
    returns (threadId': string, isDone': bool, emitted: seq<Event>)
    ensures Batched(Decoder(threadId', isDone'), emitted)
      == Batch(Decoder(threadId, isDone), messages, JsLineTerminators, parse)
  {
    threadId', isDone', emitted := threadId, isDone, [];
    for i := 0 to |messages|
      invariant Batched(Decoder(threadId', isDone'), emitted)
        == Batch(Decoder(threadId, isDone), messages[..i], JsLineTerminators, parse)
    {
      var more;
      BatchSnoc(Decoder(threadId, isDone), messages[..i], messages[i], JsLineTerminators, parse);
      assert messages[..i + 1] == messages[..i] + [messages[i]];
      threadId', isDone', more := ProcessMessage(threadId', isDone', messages[i], parse);
      emitted := emitted + more;
    }
    assert messages[..|messages|] == messages;
  }

  /** One complete fragment: skip it when blank, when no data line matches
      or when its data does not parse; otherwise latch the thread id, report
      a chunk, report and record `done`. An `error` field is thrown into the
      per-fragment catch and so changes nothing. */
  method ProcessMessage(threadId: string, isDone: bool, message: string, parse: string -> Option<Payload>)
    returns (threadId': string, isDone': bool, emitted: seq<Event>)
    ensures Batched(Decoder(threadId', isDone'), emitted) == Step(Decoder(threadId, isDone), message, JsLineTerminators, parse)
  {
    threadId', isDone', emitted := threadId, isDone, [];
    if Trim(message) == [] {
      return;
    }
    var dataMatch := DataLine(message, JsLineTerminators);
    if dataMatch.None? {
      return;
    }
    var data := parse(Trim(dataMatch.value));
    if data.None? {
      return;
    }
    threadId', isDone', emitted := ProcessPayload(threadId, isDone, data.value);
  }

  /** The parsed frame: latch its thread id if none is held, report a
      truthy chunk, then report and record a `done`. */
  method ProcessPayload(threadId: string, isDone: bool, p: Payload)
    returns (threadId': string, isDone': bool, emitted: seq<Event>)
    ensures Batched(Decoder(threadId', isDone'), emitted) == Apply(Decoder(threadId, isDone), p)
  {
    threadId', isDone', emitted := threadId, isDone, [];
    if p.threadId != "" && threadId' == "" {
      threadId' := p.threadId;
    }
    if p.chunk != "" {
      emitted := emitted + [Event(p.chunk, false, threadId')];
    }
    if p.done {
      isDone' := true;
      emitted := emitted + [Event("", true, threadId')];
    }
  }

  /** Handling one more fragment after a batch. */
  lemma BatchSnoc(d: Decoder, fragments: seq<string>, fragment: string,
                  breaks: set<char>, parse: string -> Option<Payload>)
    ensures var first := Batch(d, fragments, breaks, parse);
      var last := Step(first.dec, fragment, breaks, parse);
      Batch(d, fragments + [fragment], breaks, parse) == Batched(last.dec, first.events + last.events)
  {
    var first := Batch(d, fragments, breaks, parse);
    BatchAppend(d, fragments, [fragment], breaks, parse);
    BatchUnfold(first.dec, [fragment], breaks, parse);
    assert [fragment][1..] == [];
    var last := Step(first.dec, fragment, breaks, parse);
    assert last.events + [] == last.events;
  }

  // ---------------------------------------------------------------------
  // Threads

  /** The query `getThreads` sends: the fixed user and the page, as axios
      writes numbers. */
  function ThreadsQuery(limit: nat, offset: nat): (q: map<string, string>)
    ensures q.Keys == {"user_id", "limit", "offset"}
    ensures q["user_id"] == TestUserId
    ensures q["limit"] != "" && q["offset"] != ""
  {
    map["user_id" := TestUserId, "limit" := NatToDecimal(limit), "offset" := NatToDecimal(offset)]
  }

  /** `getThreads(limit = 50, offset = 0)`: the `threads` of a successful
      reply, and the empty list whatever went wrong. */
  function GetThreads(limit: nat, offset: nat, fetched: Result<seq<ChatThread>, string>): (r: (Call, seq<ChatThread>))
    ensures r.0 == Call(ThreadsUrl, ThreadsQuery(limit, offset), None)
    ensures fetched.Ok? ==> r.1 == fetched.value
    ensures fetched.Err? ==> r.1 == []
  {
    (Call(ThreadsUrl, ThreadsQuery(limit, offset), None), if fetched.Ok? then fetched.value else [])
  }

  /** `getThread(threadId)`: the thread, or the failure rethrown. */
  function GetThread<T>(threadId: string, fetched: Result<T, string>): (r: (Call, Result<T, string>))
    ensures r.0.url == ThreadsUrl + "/" + threadId && r.0.query == map[] && r.0.body.None?
    ensures r.1 == fetched
  {
    (Call(ThreadsUrl + "/" + threadId, map[], None), fetched)
  }

  /** `deleteThread(threadId)`: whether the status was 200; a failed delete
      is rethrown. */
  function DeleteThread(threadId: string, fetched: Result<nat, string>): (r: (Call, Result<bool, string>))
    ensures r.0 == Call(ThreadsUrl + "/" + threadId, map["user_id" := TestUserId], None)
    ensures r.1.Ok? <==> fetched.Ok?
    ensures fetched.Ok? ==> (r.1.value <==> fetched.value == 200)
    ensures fetched.Err? ==> r.1 == Err(fetched.error)
  {
    (Call(ThreadsUrl + "/" + threadId, map["user_id" := TestUserId], None),
     if fetched.Ok? then Ok(fetched.value == 200) else Err(fetched.error))
  }

  /** `healthCheck()`: true exactly for a 200 from the health endpoint;
      never throws. */
  function HealthCheck(fetched: Result<nat, string>): (r: (Call, bool))
    ensures r.0 == Call(SoulGraphUrl + "/health", map[], None)
    ensures r.1 <==> fetched.Ok? && fetched.value == 200
  {
    (Call(SoulGraphUrl + "/health", map[], None), fetched.Ok? && fetched.value == 200)
  }

  // ---------------------------------------------------------------------
  // Error policy

  /** Listing threads never fails, while fetching or deleting one passes
      every failure on to the caller. It gathers, for every failure at
      once, what the contracts of `GetThreads`, `GetThread`, `DeleteThread`
      and `HealthCheck` say one by one: a caller of `getThreads` needs no
      catch, while callers of `getThread` and `deleteThread` need one. */
  lemma ErrorPolicy(threadId: string, limit: nat, offset: nat, reason: string)
    ensures GetThreads(limit, offset, Err(reason)).1 == []
    ensures GetThread<ChatThread>(threadId, Err(reason)).1 == Err(reason)
    ensures DeleteThread(threadId, Err(reason)).1 == Err(reason)
    ensures !HealthCheck(Err(reason)).1
  {
  }
}
