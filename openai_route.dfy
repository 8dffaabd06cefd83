/** The `POST` handler of the OpenAI route (src/app/api/openai/route.ts):
    it picks the thread id, asks the completion service for an answer and
    either streams it as server-sent events or returns it as one JSON body.
    The completion service is an input: the deltas it streams, or the
    message it returns, or the reason it failed. */
module OpenAiRoute {
  import opened Wrappers
  import opened JsText
  import opened SseSplit
  import opened FrameCodec
  import opened SseDecoder
  import opened ChatTypes

  const DefaultSystemPrompt: string := "You are a helpful assistant."
  const FailureMessage: string := "Failed to process request"
  const ThreadIdPrefix: string := "openai-"

  /** `thread_id || \`openai-${Date.now()}\``. */
  function ThreadIdFor(requested: string, nowMillis: nat): (id: string)
    ensures id != ""
    ensures requested != "" ==> id == requested
    ensures requested == "" ==>
      (StartsWith(id, ThreadIdPrefix) && forall i :: |ThreadIdPrefix| <= i < |id| ==> '0' <= id[i] <= '9')
  {
    if requested != "" then requested else ThreadIdPrefix + NatToDecimal(nowMillis)
  }

  /** `system_prompt || 'You are a helpful assistant.'`. */
  function SystemPromptFor(requested: string): (prompt: string)
    ensures prompt != ""
    ensures requested != "" ==> prompt == requested
    ensures requested == "" ==> prompt == DefaultSystemPrompt
  {
    if requested != "" then requested else DefaultSystemPrompt
  }

  /** `chunk.choices[0]?.delta?.content || ''`; a missing delta is `None`. */
  function Content(delta: Option<string>): string
  {
    if delta.Some? then delta.value else ""
  }

  /** The non-empty contents, in the order the deltas arrived. */
  function Contents(deltas: seq<Option<string>>): (chunks: seq<string>)
    ensures forall i :: 0 <= i < |chunks| ==> chunks[i] != ""
  {
    if deltas == [] then []
    else
      var c := Content(deltas[0]);
      (if c != "" then [c] else []) + Contents(deltas[1..])
  }

  /** One event on the wire: `data: ${JSON.stringify(obj)}\n\n`, with
      `JSON.stringify` given as `stringify`. */
  function Frame(stringify: Payload -> string, p: Payload): string
  {
    DataPrefix + stringify(p) + Separator
  }

  function Frames(stringify: Payload -> string, ps: seq<Payload>): seq<string>
  {
    if ps == [] then [] else [Frame(stringify, ps[0])] + Frames(stringify, ps[1..])
  }

  function ThreadPayload(id: string): Payload { Payload(id, "", false, "") }
  function ChunkPayload(chunk: string): Payload { Payload("", chunk, false, "") }
  const DonePayload: Payload := Payload("", "", true, "")

  function ChunkPayloads(chunks: seq<string>): seq<Payload>
  {
    if chunks == [] then [] else [ChunkPayload(chunks[0])] + ChunkPayloads(chunks[1..])
  }

  /** The objects the stream carries: the thread id, each chunk, `done`. */
  function StreamPayloads(id: string, chunks: seq<string>): seq<Payload>
  {
    AbortedPayloads(id, chunks) + [DonePayload]
  }

  /** The objects a stream carries when the completion service throws
      after the deltas for `chunks`: the thread id and each chunk, without
      `done`. */
  function AbortedPayloads(id: string, chunks: seq<string>): seq<Payload>
  {
    [ThreadPayload(id)] + ChunkPayloads(chunks)
  }

  /** What the completion service's stream does once it is created: the
      deltas it yields, then either the end of the iteration (`thrown` is
      `None`) or the reason the iteration threw. */
  datatype Upstream = Upstream(deltas: seq<Option<string>>, thrown: Option<string>)

  /** The chunk frames for the deltas, built up from the last delta: what
      the `for await` loop has enqueued after each delta. */
  function ChunkFrames(stringify: Payload -> string, deltas: seq<Option<string>>): seq<string>
  {
    if deltas == [] then []
    else
      var content := Content(deltas[|deltas| - 1]);
      ChunkFrames(stringify, deltas[..|deltas| - 1]) + (if content != "" then [Frame(stringify, ChunkPayload(content))] else [])
  }

  /** The `start(controller)` callback: the thread-id frame, one frame per
      non-empty delta in upstream order, then the `done` frame. When the
      iteration throws, the frames enqueued so far are all the body
      carries: no `done` frame follows, and the body stream fails. */
  method EmitFrames(stringify: Payload -> string, id: string, upstream: Upstream) returns (enqueued: seq<string>)
    ensures upstream.thrown.None? ==> enqueued == Frames(stringify, StreamPayloads(id, Contents(upstream.deltas)))
    ensures upstream.thrown.Some? ==> enqueued == Frames(stringify, AbortedPayloads(id, Contents(upstream.deltas)))
  {
    var deltas := upstream.deltas;
    enqueued := [Frame(stringify, ThreadPayload(id))];
    for k := 0 to |deltas|
      invariant enqueued == [Frame(stringify, ThreadPayload(id))] + ChunkFrames(stringify, deltas[..k])
    {
      var content := Content(deltas[k]);
      assert deltas[..k + 1][..k] == deltas[..k];
      if content != "" {
        enqueued := enqueued + [Frame(stringify, ChunkPayload(content))];
      }
    }
    assert deltas[..|deltas|] == deltas;
    EmittedFrames(stringify, id, deltas);
    if upstream.thrown.None? {
      enqueued := enqueued + [Frame(stringify, DonePayload)];
    }
  }

  // ---------------------------------------------------------------------
  // The handler

  /** The request the route makes of the completion service. */
  datatype CompletionRequest = CompletionRequest(systemPrompt: string, userMessage: string, stream: bool)

  /** A response: an event stream with the frames of its body and, when
      the body stream fails after them, the reason; or a JSON body. */
  datatype RouteResponse =
    | EventStream(frames: seq<string>, failure: Option<string>)
    | JsonReply(status: nat, reply: InferenceResponse)
    | JsonError(status: nat, error: string)

  /** `POST`. `body` is `None` when the request body is not JSON. The
      completion service is given by what it does with a streaming request
      (`streamed`: the reason creating the stream threw, or what the stream
      then does) and with a plain one (`answered`: the message content,
      `None` when there is none). A failure before the response is returned
      answers 500; a failure while streaming ends the 200 event stream
      without a `done` frame. */
  method Post(stringify: Payload -> string, body: Option<InferenceRequest>, nowMillis: nat,
              streamed: Result<Upstream, string>, answered: Result<Option<string>, string>)
    returns (call: Option<CompletionRequest>, response: RouteResponse)
    ensures body.None? ==> call.None? && response == JsonError(500, FailureMessage)
    ensures body.Some? ==> call == Some(CompletionRequest(SystemPromptFor(body.value.systemPrompt), body.value.message, body.value.stream))
    ensures body.Some? && body.value.stream && streamed.Err? ==> response == JsonError(500, FailureMessage)
    ensures body.Some? && body.value.stream && streamed.Ok? && streamed.value.thrown.None? ==>
      response == EventStream(Frames(stringify, StreamPayloads(ThreadIdFor(body.value.threadId, nowMillis), Contents(streamed.value.deltas))), None)
    ensures body.Some? && body.value.stream && streamed.Ok? && streamed.value.thrown.Some? ==>
      response == EventStream(Frames(stringify, AbortedPayloads(ThreadIdFor(body.value.threadId, nowMillis), Contents(streamed.value.deltas))),
                              streamed.value.thrown)
    ensures body.Some? && !body.value.stream ==>
      response == (if answered.Ok? then JsonReply(200, InferenceResponse(Content(answered.value), ThreadIdFor(body.value.threadId, nowMillis)))
                   else JsonError(500, FailureMessage))
  {
    if body.None? {
      return None, JsonError(500, FailureMessage);
    }
    var request := body.value;
    var threadId := ThreadIdFor(request.threadId, nowMillis);
    call := Some(CompletionRequest(SystemPromptFor(request.systemPrompt), request.message, request.stream));
    if request.stream {
      if streamed.Err? {
        return call, JsonError(500, FailureMessage);
      }
      var frames := EmitFrames(stringify, threadId, streamed.value);
      response := EventStream(frames, streamed.value.thrown);
    } else {
      if answered.Err? {
        return call, JsonError(500, FailureMessage);
      }
      response := JsonReply(200, InferenceResponse(Content(answered.value), threadId));
    }
  }

  // ---------------------------------------------------------------------
  // Structure of the emitted stream

  /** The frames enqueued for the deltas are the frames of the chunk
      objects for their non-empty contents. */
  lemma {:induction false} ChunkFramesAreFrames(stringify: Payload -> string, deltas: seq<Option<string>>)
    ensures ChunkFrames(stringify, deltas) == Frames(stringify, ChunkPayloads(Contents(deltas)))
    decreases |deltas|
  {
    if deltas != [] {
      var front := deltas[..|deltas| - 1];
      var last := deltas[|deltas| - 1];
      var c := Content(last);
      ChunkFramesAreFrames(stringify, front);
      assert front + [last] == deltas;
      ContentsSnoc(front, last);
      var more := if c != "" then [c] else [];
      ChunkPayloadsAppend(Contents(front), more);
      FramesAppend(stringify, ChunkPayloads(Contents(front)), ChunkPayloads(more));
      if c != "" {
        assert ChunkPayloads(more) == [ChunkPayload(c)] by { assert more[1..] == []; }
        FramesSingleton(stringify, ChunkPayload(c));
      }
    }
  }

  lemma EmittedFrames(stringify: Payload -> string, id: string, deltas: seq<Option<string>>)
    ensures [Frame(stringify, ThreadPayload(id))] + ChunkFrames(stringify, deltas)
         == Frames(stringify, AbortedPayloads(id, Contents(deltas)))
    ensures [Frame(stringify, ThreadPayload(id))] + ChunkFrames(stringify, deltas) + [Frame(stringify, DonePayload)]
         == Frames(stringify, StreamPayloads(id, Contents(deltas)))
  {
    ChunkFramesAreFrames(stringify, deltas);
    FramesAppend(stringify, [ThreadPayload(id)], ChunkPayloads(Contents(deltas)));
    FramesAppend(stringify, AbortedPayloads(id, Contents(deltas)), [DonePayload]);
    FramesSingleton(stringify, ThreadPayload(id));
    FramesSingleton(stringify, DonePayload);
  }

  lemma FramesSingleton(stringify: Payload -> string, p: Payload)
    ensures Frames(stringify, [p]) == [Frame(stringify, p)]
  {
    assert [p][1..] == [];
  }

  lemma {:induction false} ContentsSnoc(deltas: seq<Option<string>>, last: Option<string>)
    ensures Contents(deltas + [last]) == Contents(deltas) + (if Content(last) != "" then [Content(last)] else [])
    decreases |deltas|
  {
    if deltas == [] {
      assert deltas + [last] == [last];
    } else {
      assert (deltas + [last])[1..] == deltas[1..] + [last];
      ContentsSnoc(deltas[1..], last);
    }
  }

  lemma {:induction false} ChunkPayloadsAppend(a: seq<string>, b: seq<string>)
    ensures ChunkPayloads(a + b) == ChunkPayloads(a) + ChunkPayloads(b)
    decreases |a|
  {
    if a == [] {
      assert a + b == b;
    } else {
      assert (a + b)[1..] == a[1..] + b;
      ChunkPayloadsAppend(a[1..], b);
    }
  }

  lemma {:induction false} FramesAppend(stringify: Payload -> string, a: seq<Payload>, b: seq<Payload>)
    ensures Frames(stringify, a + b) == Frames(stringify, a) + Frames(stringify, b)
    decreases |a|
  {
    if a == [] {
      assert a + b == b;
    } else {
      assert (a + b)[1..] == a[1..] + b;
      FramesAppend(stringify, a[1..], b);
    }
  }

  /** Exactly one frame of a stream signals `done`, and it is the last; the
      first frame carries the thread id and nothing else. */
  lemma StreamShape(id: string, chunks: seq<string>)
    requires forall i :: 0 <= i < |chunks| ==> chunks[i] != ""
    ensures var ps := StreamPayloads(id, chunks);
      |ps| == |chunks| + 2
      && ps[0] == Payload(id, "", false, "")
      && ps[|ps| - 1].done
      && (forall i :: 0 <= i < |ps| - 1 ==> !ps[i].done)
      && (forall i :: 1 <= i < |ps| - 1 ==> ps[i].chunk == chunks[i - 1])
  {
    ChunkPayloadsShape(chunks);
  }

  lemma {:induction false} ChunkPayloadsShape(chunks: seq<string>)
    ensures |ChunkPayloads(chunks)| == |chunks|
    ensures forall i :: 0 <= i < |chunks| ==> ChunkPayloads(chunks)[i] == ChunkPayload(chunks[i])
    decreases |chunks|
  {
    if chunks != [] {
      ChunkPayloadsShape(chunks[1..]);
    }
  }
}
