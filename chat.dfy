/** The `Chat` component (src/components/Chat.tsx): the message list, the
    streamed-reply reassembly, the send operation with its non-streaming
    fallback, thread loading and the realtime subscription to the open
    thread. React state and refs are fields updated in sequence; what the
    network and the database answer are inputs of each operation. */
module ChatComponent {
  import opened Wrappers
  import opened JsText
  import opened FrameCodec
  import opened SseDecoder
  import opened ChatTypes
  import opened StreamRoundTrip
  import Api
  import opened OpenAiRoute

  const TestPrefix: string := "test-"
  const CompleteStatus: string := "Complete"
  const ConnectingStatus: string := "Connecting..."
  const FallbackStatus: string := "Streaming failed, falling back to standard request..."
  const ProcessingStatus: string := "Processing..."
  const StreamErrorPrefix: string := "Error: "
  const SendFailurePrefix: string := "Failed to send message: "
  const LoadFailure: string := "Failed to load chat thread"
  const DefaultModel: string := "soulgraph"

  /** The three messages shown for a `test-` thread. */
  const MockMessages: seq<Message> := [
    Message(System, "You are a helpful assistant."),
    Message(User, "Hello, how are you?"),
    Message(Assistant, "I'm doing well, thank you for asking! How can I help you today?")]

  // ---------------------------------------------------------------------
  // Reassembly of a streamed reply

  /** The message list, the accumulated response (`currentResponseRef`) and
      whether an assistant message is open (`assistantMessageRef`). */
  datatype Transcript = Transcript(messages: seq<Message>, current: string, open: bool)

  /** What one chunk callback does to the transcript: the chunk is added to
      the accumulated response; with no message open it starts a new
      assistant message holding the chunk, otherwise the last message, if it
      is the assistant's, is given the whole accumulated response. A
      completion closes the open message. */
  function Feed(t: Transcript, chunk: string, isComplete: bool): (r: Transcript)
    ensures r.current == t.current + chunk && r.open == !isComplete
    ensures !t.open ==> r.messages == t.messages + [Message(Assistant, chunk)]
    ensures t.open ==>
      (|r.messages| == |t.messages| && forall i :: 0 <= i < |t.messages| - 1 ==> r.messages[i] == t.messages[i])
    ensures t.open && t.messages != [] ==>
      var last := t.messages[|t.messages| - 1];
      r.messages[|t.messages| - 1] == (if last.role == Assistant then last.(content := r.current) else last)
  {
    var current := t.current + chunk;
    var messages :=
      if !t.open then t.messages + [Message(Assistant, chunk)]
      else if |t.messages| > 0 && t.messages[|t.messages| - 1].role == Assistant
      then t.messages[|t.messages| - 1 := t.messages[|t.messages| - 1].(content := current)]
      else t.messages;
    Transcript(messages, current, !isComplete)
  }

  /** The callbacks in order. */
  function FeedAll(t: Transcript, events: seq<Event>): Transcript
  {
    if events == [] then t
    else
      var last := events[|events| - 1];
      Feed(FeedAll(t, events[..|events| - 1]), last.chunk, last.isComplete)
  }

  /** The chunk texts of the callbacks, joined. */
  function Chunks(events: seq<Event>): string
  {
    if events == [] then "" else Chunks(events[..|events| - 1]) + events[|events| - 1].chunk
  }

  /** `receivedChunks`: the chunk texts in order. */
  function Texts(events: seq<Event>): (r: seq<string>)
    ensures |r| == |events|
  {
    if events == [] then [] else Texts(events[..|events| - 1]) + [events[|events| - 1].chunk]
  }

  predicate NoneComplete(events: seq<Event>)
  {
    forall i :: 0 <= i < |events| ==> !events[i].isComplete
  }

  /** After a send, chunk callbacks with no completion among them build one
      assistant message after the earlier messages, holding the chunks
      joined in order, and keep it open. */
  lemma {:induction false} AccumulationLaw(earlier: seq<Message>, events: seq<Event>)
    requires events != [] && NoneComplete(events)
    ensures FeedAll(Transcript(earlier, "", false), events)
         == Transcript(earlier + [Message(Assistant, Chunks(events))], Chunks(events), true)
    decreases |events|
  {
    var front := events[..|events| - 1];
    var last := events[|events| - 1];
    if front == [] {
      assert Chunks(events) == last.chunk by { assert Chunks(front) == ""; }
    } else {
      AccumulationLaw(earlier, front);
      var t := FeedAll(Transcript(earlier, "", false), front);
      var grown := earlier + [Message(Assistant, Chunks(front))];
      assert t.messages == grown;
      assert grown[|grown| - 1 := Message(Assistant, Chunks(events))] == earlier + [Message(Assistant, Chunks(events))];
    }
  }

  /** The first completion closes that message: it holds every chunk before
      it, and a completion with no chunk before it leaves an empty
      assistant message. */
  lemma {:induction false} CompletionLaw(earlier: seq<Message>, events: seq<Event>)
    requires events != [] && events[|events| - 1].isComplete
    requires NoneComplete(events[..|events| - 1])
    ensures FeedAll(Transcript(earlier, "", false), events)
         == Transcript(earlier + [Message(Assistant, Chunks(events))], Chunks(events), false)
  {
    var front := events[..|events| - 1];
    var last := events[|events| - 1];
    if front == [] {
      assert Chunks(events) == last.chunk by { assert Chunks(front) == ""; }
    } else {
      AccumulationLaw(earlier, front);
      var grown := earlier + [Message(Assistant, Chunks(front))];
      assert grown[|grown| - 1 := Message(Assistant, Chunks(events))] == earlier + [Message(Assistant, Chunks(events))];
    }
  }

  /** The callbacks a well-formed stream produces (its chunks, then one
      completion) leave exactly one new assistant message holding the whole
      reply, and close it. */
  lemma {:induction false} StreamedReplyAssembled(earlier: seq<Message>, chunks: seq<string>, id: string)
    ensures FeedAll(Transcript(earlier, "", false), Expected(chunks, id))
         == Transcript(earlier + [Message(Assistant, Concat(chunks))], Concat(chunks), false)
  {
    var events := Expected(chunks, id);
    ChunkEventsShape(chunks, id);
    assert events[..|events| - 1] == ChunkEvents(chunks, id);
    CompletionLaw(earlier, events);
    ChunksOfChunkEvents(chunks, id);
  }

  lemma {:induction false} ChunksOfChunkEvents(chunks: seq<string>, id: string)
    ensures Chunks(ChunkEvents(chunks, id) + [Event("", true, id)]) == Concat(chunks)
    decreases |chunks|
  {
    var events := ChunkEvents(chunks, id) + [Event("", true, id)];
    assert events[..|events| - 1] == ChunkEvents(chunks, id);
    if chunks != [] {
      ChunksOfChunkEvents(chunks[1..], id);
      var rest := ChunkEvents(chunks[1..], id);
      ChunksAppend([Event(chunks[0], false, id)], rest + [Event("", true, id)]);
      assert ChunkEvents(chunks, id) + [Event("", true, id)] == [Event(chunks[0], false, id)] + (rest + [Event("", true, id)]);
      assert Chunks([Event(chunks[0], false, id)]) == chunks[0] by {
        assert [Event(chunks[0], false, id)][..0] == [];
      }
    }
  }

  lemma {:induction false} ChunksAppend(a: seq<Event>, b: seq<Event>)
    ensures Chunks(a + b) == Chunks(a) + Chunks(b)
    decreases |b|
  {
    if b == [] {
      assert a + b == a;
    } else {
      var front := b[..|b| - 1];
      ChunksAppend(a, front);
      assert (a + b)[..|a + b| - 1] == a + front;
    }
  }

  // ---------------------------------------------------------------------
  // The parent's `onThreadCreated`

  /** The call a chunk callback makes: only when the component has no
      thread, the callback carries one and a handler was given. */
  function Announce(threadId: string, notify: bool, id: string): seq<string>
  {
    if id != "" && threadId == "" && notify then [id] else []
  }

  function Announcements(threadId: string, notify: bool, events: seq<Event>): seq<string>
  {
    if events == [] then []
    else
      var last := events[|events| - 1];
      Announcements(threadId, notify, events[..|events| - 1]) + Announce(threadId, notify, last.threadId)
  }

  /** Only ids the callbacks carried are announced, and only while the
      component has no thread and a handler was given. */
  lemma {:induction false} AnnouncedIds(threadId: string, notify: bool, events: seq<Event>)
    ensures Announcements(threadId, notify, events) != [] ==> threadId == "" && notify
    ensures forall k :: 0 <= k < |Announcements(threadId, notify, events)| ==>
      Announcements(threadId, notify, events)[k] != ""
      && exists i :: 0 <= i < |events| && events[i].threadId == Announcements(threadId, notify, events)[k]
    decreases |events|
  {
    if events != [] {
      var front := events[..|events| - 1];
      AnnouncedIds(threadId, notify, front);
      var told := Announcements(threadId, notify, events);
      var a := Announcements(threadId, notify, front);
      var last := events[|events| - 1];
      assert told == a + Announce(threadId, notify, last.threadId);
      forall k | 0 <= k < |told|
        ensures told[k] != "" && exists i :: 0 <= i < |events| && events[i].threadId == told[k]
      {
        if k < |a| {
          assert told[k] == a[k];
          assert exists i :: 0 <= i < |front| && front[i].threadId == a[k];
          var i :| 0 <= i < |front| && front[i].threadId == a[k];
          assert events[i] == front[i];
        } else {
          assert told[k] == last.threadId;
        }
      }
    }
  }

  /** The ids the callbacks carry, in order, skipping the empty ones. */
  function CarriedIds(events: seq<Event>): seq<string>
  {
    if events == [] then []
    else (if events[0].threadId != "" then [events[0].threadId] else []) + CarriedIds(events[1..])
  }

  /** While the component has no thread and a handler was given, every
      callback carrying an id announces it: the parent is told each carried
      id, in order, once per callback. */
  lemma {:induction false} AnnouncesEveryId(notify: bool, events: seq<Event>)
    requires notify
    ensures Announcements("", notify, events) == CarriedIds(events)
    decreases |events|
  {
    if events != [] {
      var front := events[..|events| - 1];
      var last := events[|events| - 1];
      AnnouncesEveryId(notify, front);
      CarriedIdsSnoc(front, last);
      assert front + [last] == events;
    }
  }

  lemma {:induction false} CarriedIdsSnoc(events: seq<Event>, e: Event)
    ensures CarriedIds(events + [e]) == CarriedIds(events) + (if e.threadId != "" then [e.threadId] else [])
    decreases |events|
  {
    if events == [] {
      assert events + [e] == [e];
    } else {
      assert (events + [e])[1..] == events[1..] + [e];
      CarriedIdsSnoc(events[1..], e);
    }
  }

  /** Every chunk callback of a new conversation reports the thread again,
      but since the decoder latches the id once, the parent is only ever
      told one id. */
  lemma {:induction false} OneThreadAnnounced(threadId: string, notify: bool, events: seq<Event>)
    requires LatchedOnce(events)
    ensures forall k :: 0 <= k < |Announcements(threadId, notify, events)| ==>
      Announcements(threadId, notify, events)[k] == Announcements(threadId, notify, events)[0]
    decreases |events|
  {
    if events != [] {
      var front := events[..|events| - 1];
      var last := events[|events| - 1];
      assert LatchedOnce(front);
      OneThreadAnnounced(threadId, notify, front);
      AnnouncedIds(threadId, notify, front);
      var a := Announcements(threadId, notify, front);
      if a != [] && Announce(threadId, notify, last.threadId) != [] {
        var i :| 0 <= i < |front| && front[i].threadId == a[0] && a[0] != "";
        assert events[i] == front[i];
      }
    }
  }

  // ---------------------------------------------------------------------
  // Realtime updates and thread loading

  /** A `messages` column as the handlers see it. */
  datatype Column = Absent | NotArray | Items(list: seq<Message>)

  /** A change notification for the open thread: its new and old rows. */
  datatype Change = Change(newRow: Option<Column>, oldRow: Option<Column>)

  /** `row.messages || []`, when that is an array. */
  function Listed(c: Column): Option<seq<Message>>
  {
    match c
    case Absent => Some([])
    case NotArray => None
    case Items(list) => Some(list)
  }

  /** The realtime handler's choice: the new rows' messages to show
      directly, or `None` to re-fetch the thread. The inner non-emptiness
      check never fails, since the new list is longer than the old. */
  function Reaction(c: Change): (r: Option<seq<Message>>)
    ensures r.Some? <==>
      (c.newRow.Some? && c.oldRow.Some?
       && Listed(c.newRow.value).Some? && Listed(c.oldRow.value).Some?
       && |Listed(c.newRow.value).value| > |Listed(c.oldRow.value).value|)
    ensures r.Some? ==> r.value == Listed(c.newRow.value).value && r.value != []
  {
    if c.newRow.Some? && c.oldRow.Some? then
      var oldMessages := Listed(c.oldRow.value);
      var newMessages := Listed(c.newRow.value);
      if oldMessages.Some? && newMessages.Some? && |newMessages.value| > |oldMessages.value| then
        if |newMessages.value| > 0 then Some(newMessages.value) else None
      else None
    else None
  }

  /** What the direct database lookup of a thread gives. */
  datatype Lookup =
    | QueryError(message: string)     // the query reported an error
    | Row(messages: Column)           // a row was found
    | NoRow                           // no row has that id
    | QueryThrew(message: string)     // the query threw

  datatype Loaded = Loaded(messages: seq<Message>, error: string, askedApi: bool)

  /** `loadThreadMessages`: a `test-` thread shows the mock messages; else a
      database row with a messages array wins; else the thread service is
      asked, a reply without a messages array shows nothing, and a failure
      shows nothing with the load error. */
  function Load(id: string, lookup: Lookup, fetched: Result<Column, string>): (r: Loaded)
    ensures StartsWith(id, TestPrefix) ==> r == Loaded(MockMessages, "", false)
    ensures !StartsWith(id, TestPrefix) && lookup.Row? && lookup.messages.Items? ==>
      r == Loaded(lookup.messages.list, "", false)
    ensures r.askedApi <==> !StartsWith(id, TestPrefix) && !(lookup.Row? && lookup.messages.Items?)
    ensures r.askedApi ==> r.error == (if fetched.Err? then LoadFailure else "")
    ensures r.askedApi ==> r.messages == (if fetched.Ok? && fetched.value.Items? then fetched.value.list else [])
  {
    if StartsWith(id, TestPrefix) then Loaded(MockMessages, "", false)
    else if lookup.Row? && lookup.messages.Items? then Loaded(lookup.messages.list, "", false)
    else
      var thread := Api.GetThread(id, fetched).1;
      if thread.Err? then Loaded([], LoadFailure, true)
      else if thread.value.Items? then Loaded(thread.value.list, "", true)
      else Loaded([], "", true)
  }

  /** The status line after a chunk callback: the chunk count it shows
      is the one of the render the callback belongs to. */
  function ChunkStatus(isComplete: bool, shownCount: nat): (r: string)
    ensures isComplete ==> r == CompleteStatus
    ensures !isComplete ==> r == "Receiving (" + NatToDecimal(shownCount) + " chunks)"
  {
    if isComplete then CompleteStatus else "Receiving (" + NatToDecimal(shownCount) + " chunks)"
  }

  /** Whether a thread gets a realtime channel. */
  predicate Subscribes(id: string)
  {
    id != "" && !StartsWith(id, TestPrefix)
  }

  /** Whether `handleSendMessage` goes ahead: the input is not blank and no
      request is in flight. */
  predicate Sends(input: string, isLoading: bool)
  {
    Trim(input) != [] && !isLoading
  }

  /** The transcript right after a send: the user message appended, the
      accumulated response emptied and no assistant message open. */
  function Sent(messages: seq<Message>, input: string): Transcript
  {
    Transcript(messages + [Message(User, input)], "", false)
  }

  /** The `onThreadCreated` call a non-streaming reply makes. */
  function Replied(threadId: string, notify: bool, posted: Result<InferenceResponse, string>): seq<string>
  {
    if posted.Ok? then Announce(threadId, notify, posted.value.threadId) else []
  }

  /** A reply from the non-streaming call as the assistant message it adds. */
  function Answer(posted: Result<InferenceResponse, string>): seq<Message>
  {
    if posted.Ok? then [Message(Assistant, posted.value.response)] else []
  }

  // ---------------------------------------------------------------------
  // What a send does

  /** The part of the component's state a send changes: the transcript,
      `chunkCount`, `receivedChunks`, the error shown and the ids passed to
      `onThreadCreated`. */
  datatype Session = Session(view: Transcript, chunkCount: nat, receivedChunks: seq<string>,
                             error: string, announced: seq<string>)

  /** The start of a send: the user message is added, the error cleared
      and the reassembly reset. */
  function Begun(before: Session, input: string): Session
  {
    Session(Sent(before.view.messages, input), 0, [], "", before.announced)
  }

  /** The stream's chunk callbacks, in order. */
  function Callbacks(before: Session, threadId: string, notify: bool, events: seq<Event>): Session
  {
    Session(FeedAll(before.view, events), before.chunkCount + |events|, before.receivedChunks + Texts(events),
            before.error, before.announced + Announcements(threadId, notify, events))
  }

  /** One chunk callback. */
  function Callback(before: Session, threadId: string, notify: bool, e: Event): Session
  {
    Session(Feed(before.view, e.chunk, e.isComplete), before.chunkCount + 1, before.receivedChunks + [e.chunk],
            before.error, before.announced + Announce(threadId, notify, e.threadId))
  }

  /** Whether the callbacks so far completed, one callback at a time. */
  lemma CompletesStep(events: seq<Event>, i: nat)
    requires i < |events|
    ensures Completes(events[..i + 1]) <==> Completes(events[..i]) || events[i].isComplete
  {
    assert events[..i + 1] == events[..i] + [events[i]];
    CompletesAppend(events[..i], [events[i]]);
    assert Completes([events[i]]) == events[i].isComplete;
  }

  /** The callbacks one at a time. */
  lemma CallbacksStep(start: Session, threadId: string, notify: bool, events: seq<Event>, i: nat)
    requires i < |events|
    ensures Callbacks(start, threadId, notify, events[..i + 1])
         == Callback(Callbacks(start, threadId, notify, events[..i]), threadId, notify, events[i])
  {
    var front := events[..i];
    assert events[..i + 1][..i] == front;
    AppendAssoc(start.receivedChunks, Texts(front), [events[i].chunk]);
    AppendAssoc(start.announced, Announcements(threadId, notify, front), Announce(threadId, notify, events[i].threadId));
  }

  /** The non-streaming request: its reply adds the assistant message and
      may name a new thread; its failure is shown. */
  function Answered(before: Session, threadId: string, notify: bool, posted: Result<InferenceResponse, string>): Session
  {
    Session(before.view.(messages := before.view.messages + Answer(posted)), before.chunkCount, before.receivedChunks,
            if posted.Ok? then before.error else SendFailurePrefix + posted.error,
            before.announced + Replied(threadId, notify, posted))
  }

  /** The streaming branch: the callbacks, then, if the stream rejects, its
      error and the non-streaming request. */
  function StreamedSend(before: Session, threadId: string, notify: bool, s: Settlement,
                        posted: Result<InferenceResponse, string>): Session
  {
    var streamed := Callbacks(before, threadId, notify, s.events);
    if s.failure.None? then streamed
    else Answered(streamed.(error := StreamErrorPrefix + s.failure.value), threadId, notify, posted)
  }

  /** A send that goes ahead, streaming or not. */
  function AfterSend(before: Session, input: string, streaming: bool, threadId: string, notify: bool,
                     s: Settlement, posted: Result<InferenceResponse, string>): Session
  {
    var begun := Begun(before, input);
    if streaming then StreamedSend(begun, threadId, notify, s, posted) else Answered(begun, threadId, notify, posted)
  }

  /** The requests a send makes. */
  function SendCalls(input: string, threadId: string, model: string, streaming: bool, failure: Option<string>): seq<Api.Call>
  {
    if !streaming then [Api.MessageCall(input, threadId, model)]
    else if failure.None? then [Api.StreamCall(input, threadId, model)]
    else [Api.StreamCall(input, threadId, model), Api.MessageCall(input, threadId, model)]
  }

  /** An error is shown after a send exactly when its request failed: the
      stream (even if the fallback then answers), or the non-streaming
      request. The fallback makes exactly one extra request. */
  lemma SendErrorShown(before: Session, input: string, streaming: bool, threadId: string, notify: bool,
                       s: Settlement, posted: Result<InferenceResponse, string>, model: string)
    ensures AfterSend(before, input, streaming, threadId, notify, s, posted).error == ""
      <==> (if streaming then s.failure.None? else posted.Ok?)
    ensures |SendCalls(input, threadId, model, streaming, s.failure)| == (if streaming && s.failure.Some? then 2 else 1)
  {
  }

  /** `chunkCount` and `receivedChunks` agree after every send. */
  lemma ChunkCountAgrees(before: Session, input: string, streaming: bool, threadId: string, notify: bool,
                         s: Settlement, posted: Result<InferenceResponse, string>)
    ensures var after := AfterSend(before, input, streaming, threadId, notify, s, posted);
      after.chunkCount == |after.receivedChunks| == (if streaming then |s.events| else 0)
  {
  }

  /** The callbacks never rewrite a message before the first `n` while
      those are not followed by an open assistant message. */
  lemma {:induction false} FeedAllKeepsPrefix(t: Transcript, events: seq<Event>, n: nat)
    requires n <= |t.messages| && (t.open ==> n < |t.messages|)
    ensures var r := FeedAll(t, events);
      n <= |r.messages| && r.messages[..n] == t.messages[..n] && (r.open ==> n < |r.messages|)
    decreases |events|
  {
    if events != [] {
      var front := events[..|events| - 1];
      FeedAllKeepsPrefix(t, front, n);
      var u := FeedAll(t, front);
      var last := events[|events| - 1];
      var r := Feed(u, last.chunk, last.isComplete);
      if u.open {
        assert forall i :: 0 <= i < n ==> r.messages[i] == u.messages[i];
      } else {
        assert r.messages[..n] == u.messages[..n];
      }
    }
  }

  /** A send never rewrites the conversation: the earlier messages and the
      user's message stay as they were, whatever the replies. */
  lemma SendKeepsHistory(before: Session, input: string, streaming: bool, threadId: string, notify: bool,
                         s: Settlement, posted: Result<InferenceResponse, string>)
    ensures var after := AfterSend(before, input, streaming, threadId, notify, s, posted);
      var kept := before.view.messages + [Message(User, input)];
      |kept| <= |after.view.messages| && after.view.messages[..|kept|] == kept
  {
    var begun := Begun(before, input);
    var kept := before.view.messages + [Message(User, input)];
    FeedAllKeepsPrefix(begun.view, s.events, |kept|);
    var fed := FeedAll(begun.view, s.events);
    assert fed.messages[..|kept|] == kept;
    assert (fed.messages + Answer(posted))[..|kept|] == kept by {
      assert (fed.messages + Answer(posted))[..|kept|] == fed.messages[..|kept|];
    }
    assert (kept + Answer(posted))[..|kept|] == kept;
  }

  /** The client's stream of a reply from the OpenAI route settles with
      the reply's chunks, then one completion, and no failure, provided the
      thread id and the deltas hold neither U+2028 nor U+2029. */
  lemma RouteStreamSettles(threadId: string, stringify: Payload -> string, parse: string -> Option<Payload>,
                           nowMillis: nat, deltas: seq<Option<string>>, received: seq<string>, ending: Ending)
    requires CodecLaws(stringify, parse, JsLineTerminators)
    requires Avoids(ThreadIdFor(threadId, nowMillis), RawTerminators)
    requires forall i :: 0 <= i < |Contents(deltas)| ==> Avoids(Contents(deltas)[i], RawTerminators)
    requires Concat(received) == Concat(Frames(stringify, StreamPayloads(ThreadIdFor(threadId, nowMillis), Contents(deltas))))
    ensures Api.Streamed(threadId, Api.Responded(true, 200, Some(Api.Body(received, ending))), parse)
         == Settlement(Expected(Contents(deltas), ThreadIdFor(threadId, nowMillis)), None)
  {
    JsRoundTrip(stringify, parse, threadId, nowMillis, deltas, received, ending);
  }

  /** When the completion service throws partway through, the client's
      stream of the OpenAI route's reply reports the chunks sent so far, no
      completion, and rejects with the read failure; the send then makes
      its non-streaming fallback request. */
  lemma RouteStreamAborts(threadId: string, stringify: Payload -> string, parse: string -> Option<Payload>,
                          nowMillis: nat, deltas: seq<Option<string>>, received: seq<string>, reason: string,
                          input: string, model: string)
    requires CodecLaws(stringify, parse, JsLineTerminators)
    requires Avoids(ThreadIdFor(threadId, nowMillis), RawTerminators)
    requires forall i :: 0 <= i < |Contents(deltas)| ==> Avoids(Contents(deltas)[i], RawTerminators)
    requires Concat(received) == Concat(Frames(stringify, AbortedPayloads(ThreadIdFor(threadId, nowMillis), Contents(deltas))))
    ensures var s := Api.Streamed(threadId, Api.Responded(true, 200, Some(Api.Body(received, ReadFailure(reason)))), parse);
      s == Settlement(ChunkEvents(Contents(deltas), ThreadIdFor(threadId, nowMillis)), Some(reason))
      && SendCalls(input, threadId, model, true, s.failure)
         == [Api.StreamCall(input, threadId, model), Api.MessageCall(input, threadId, model)]
  {
    assert Visible(JsLineTerminators) == RawTerminators;
    AbortedRoundTrip(stringify, parse, JsLineTerminators, threadId, nowMillis, deltas, received, reason);
  }

  /** A streamed send answered by the OpenAI route ends with the user's
      message followed by one closed assistant message holding the whole
      reply, shows no error and makes no fallback request: the chunks are
      reported once each, in order, whatever the read boundaries, when the
      thread id and the deltas hold neither U+2028 nor U+2029. */
  lemma StreamedSendShowsReply(before: Session, input: string, threadId: string, notify: bool,
                               stringify: Payload -> string, parse: string -> Option<Payload>,
                               nowMillis: nat, deltas: seq<Option<string>>, received: seq<string>,
                               ending: Ending, posted: Result<InferenceResponse, string>, model: string)
    requires CodecLaws(stringify, parse, JsLineTerminators)
    requires Avoids(ThreadIdFor(threadId, nowMillis), RawTerminators)
    requires forall i :: 0 <= i < |Contents(deltas)| ==> Avoids(Contents(deltas)[i], RawTerminators)
    requires Concat(received) == Concat(Frames(stringify, StreamPayloads(ThreadIdFor(threadId, nowMillis), Contents(deltas))))
    ensures var s := Api.Streamed(threadId, Api.Responded(true, 200, Some(Api.Body(received, ending))), parse);
      var reply := Concat(Contents(deltas));
      var after := AfterSend(before, input, true, threadId, notify, s, posted);
      after.view == Transcript(before.view.messages + [Message(User, input), Message(Assistant, reply)], reply, false)
      && after.error == "" && SendCalls(input, threadId, model, true, s.failure) == [Api.StreamCall(input, threadId, model)]
  {
    RouteStreamSettles(threadId, stringify, parse, nowMillis, deltas, received, ending);
    SettledSendShowsReply(before, input, threadId, notify, Contents(deltas), ThreadIdFor(threadId, nowMillis), posted, model);
  }

  /** A streamed send whose stream settles with the callbacks of a whole
      reply shows that reply after the user's message. */
  lemma SettledSendShowsReply(before: Session, input: string, threadId: string, notify: bool,
                              chunks: seq<string>, id: string, posted: Result<InferenceResponse, string>, model: string)
    ensures var s := Settlement(Expected(chunks, id), None);
      var reply := Concat(chunks);
      var after := AfterSend(before, input, true, threadId, notify, s, posted);
      after.view == Transcript(before.view.messages + [Message(User, input), Message(Assistant, reply)], reply, false)
      && after.error == "" && SendCalls(input, threadId, model, true, s.failure) == [Api.StreamCall(input, threadId, model)]
  {
    var s := Settlement(Expected(chunks, id), None);
    var kept := before.view.messages + [Message(User, input)];
    StreamedReplyAssembled(kept, chunks, id);
    assert kept + [Message(Assistant, Concat(chunks))]
        == before.view.messages + [Message(User, input), Message(Assistant, Concat(chunks))];
    assert AfterSend(before, input, true, threadId, notify, s, posted)
        == Callbacks(Begun(before, input), threadId, notify, s.events);
  }

  // ---------------------------------------------------------------------
  // The component

  class Chat {
    /** The `threadId` prop, and whether `onThreadCreated` was given. */
    var threadId: string
    const notify: bool
    /** The ids passed to `onThreadCreated`, in order. */
    var announced: seq<string>

    var messages: seq<Message>
    var input: string
    var isLoading: bool
    var error: string
    var useStreaming: bool
    var streamingStatus: string
    var chunkCount: nat
    var receivedChunks: seq<string>
    var isTyping: bool
    var selectedModel: string
    var currentResponse: string
    var assistantOpen: bool
    /** `channelRef`: the thread whose channel is held. */
    var channel: Option<string>
    /** The thread channels the realtime client has open. */
    var subscriptions: multiset<string>

    /** The held channel is the only open one, and it belongs to the
        current thread. */
    predicate Valid()
      reads this`channel, this`subscriptions, this`threadId
    {
      subscriptions == (if channel.Some? then multiset{channel.value} else multiset{})
      && (channel.Some? ==> channel.value == threadId && Subscribes(threadId))
    }

    /** The transcript the component holds. */
    function View(): Transcript
      reads this`messages, this`currentResponse, this`assistantOpen
    {
      Transcript(messages, currentResponse, assistantOpen)
    }

    /** The state a send changes. */
    function Snapshot(): Session
      reads this`messages, this`currentResponse, this`assistantOpen, this`chunkCount, this`receivedChunks,
            this`error, this`announced
    {
      Session(View(), chunkCount, receivedChunks, error, announced)
    }

    constructor (threadId: string, notify: bool)
      ensures Valid() && this.threadId == threadId && this.notify == notify
      ensures messages == [] && input == "" && !isLoading && error == "" && useStreaming
      ensures streamingStatus == "" && chunkCount == 0 && receivedChunks == [] && !isTyping
      ensures selectedModel == DefaultModel && currentResponse == "" && !assistantOpen
      ensures channel.None? && announced == []
    {
      this.threadId := threadId;
      this.notify := notify;
      announced := [];
      messages := [];
      input := "";
      isLoading := false;
      error := "";
      useStreaming := true;
      streamingStatus := "";
      chunkCount := 0;
      receivedChunks := [];
      isTyping := false;
      selectedModel := DefaultModel;
      currentResponse := "";
      assistantOpen := false;
      channel := None;
      subscriptions := multiset{};
    }

    /** `handleStreamChunk`. `shownCount` is the chunk count of the render
        whose callback is running, which the status line shows. */
    method HandleStreamChunk(chunk: string, isComplete: bool, newThreadId: string, shownCount: nat)
      modifies this`chunkCount, this`receivedChunks, this`announced, this`currentResponse,
               this`assistantOpen, this`messages, this`streamingStatus, this`isLoading, this`isTyping
      ensures Snapshot() == Callback(old(Snapshot()), threadId, notify, Event(chunk, isComplete, newThreadId))
      ensures streamingStatus == ChunkStatus(isComplete, shownCount)
      ensures isLoading == (old(isLoading) && !isComplete) && isTyping == (old(isTyping) && !isComplete)
    {
      Tally(chunk, newThreadId);
      Reassemble(chunk, isComplete);
      streamingStatus := ChunkStatus(isComplete, shownCount);
      if isComplete {
        isLoading := false;
        isTyping := false;
      }
    }

    /** The bookkeeping of `handleStreamChunk`: the chunk is counted and
        recorded, and the parent is told the callback's thread id when the
        chat has none. */
    method Tally(chunk: string, newThreadId: string)
      modifies this`chunkCount, this`receivedChunks, this`announced
      ensures chunkCount == old(chunkCount) + 1 && receivedChunks == old(receivedChunks) + [chunk]
      ensures announced == old(announced) + Announce(threadId, notify, newThreadId)
    {
      chunkCount := chunkCount + 1;
      receivedChunks := receivedChunks + [chunk];
      if newThreadId != "" && threadId == "" && notify {
        announced := announced + [newThreadId];
      }
    }

    /** The part of `handleStreamChunk` that touches the transcript. */
    method Reassemble(chunk: string, isComplete: bool)
      modifies this`currentResponse, this`assistantOpen, this`messages
      ensures View() == Feed(old(View()), chunk, isComplete)
    {
      currentResponse := currentResponse + chunk;
      if !assistantOpen {
        assistantOpen := true;
        messages := messages + [Message(Assistant, chunk)];
      } else {
        var lastIndex := |messages| - 1;
        if lastIndex >= 0 && messages[lastIndex].role == Assistant {
          messages := messages[lastIndex := messages[lastIndex].(content := currentResponse)];
        }
      }
      if isComplete {
        assistantOpen := false;
      }
    }

    /** `loadThreadMessages(id)`, with the database lookup and the thread
        service's reply (its `messages`) as inputs. */
    method LoadThreadMessages(id: string, lookup: Lookup, fetched: Result<Column, string>)
      requires Valid()
      modifies this`messages, this`isLoading, this`error
      ensures Valid() && !isLoading
      ensures messages == Load(id, lookup, fetched).messages && error == Load(id, lookup, fetched).error
    {
      isLoading := true;
      error := "";
      if StartsWith(id, TestPrefix) {
        messages := MockMessages;
        isLoading := false;
        return;
      }
      if lookup.Row? && lookup.messages.Items? {
        messages := lookup.messages.list;
        isLoading := false;
        return;
      }
      var thread := Api.GetThread(id, fetched).1;
      if thread.Err? {
        error := LoadFailure;
        messages := [];
      } else if thread.value.Items? {
        messages := thread.value.list;
      } else {
        messages := [];
      }
      isLoading := false;
    }

    /** Releases the held channel, if any. */
    method Unsubscribe()
      requires Valid()
      modifies this`channel, this`subscriptions
      ensures Valid() && channel.None? && subscriptions == multiset{}
    {
      if channel.Some? {
        subscriptions := subscriptions - multiset{channel.value};
        channel := None;
      }
    }

    /** The effect that runs when the `threadId` prop becomes `newThreadId`:
        the held channel is released first; a thread is then loaded and,
        unless it is a `test-` thread, subscribed to (`subscribed` says
        whether the subscription call returned a channel rather than
        throwing); no thread clears the messages. */
    method ThreadEffect(newThreadId: string, lookup: Lookup, fetched: Result<Column, string>, subscribed: bool)
      requires Valid()
      modifies this`threadId, this`channel, this`subscriptions, this`messages, this`isLoading, this`error
      ensures Valid() && threadId == newThreadId
      ensures channel == (if Subscribes(newThreadId) && subscribed then Some(newThreadId) else None)
      ensures newThreadId == "" ==> messages == [] && isLoading == old(isLoading) && error == old(error)
      ensures newThreadId != "" ==>
        (!isLoading && messages == Load(newThreadId, lookup, fetched).messages
         && error == Load(newThreadId, lookup, fetched).error)
    {
      Unsubscribe();
      threadId := newThreadId;
      if newThreadId != "" {
        LoadThreadMessages(newThreadId, lookup, fetched);
        if !StartsWith(newThreadId, TestPrefix) && subscribed {
          subscriptions := subscriptions + multiset{newThreadId};
          channel := Some(newThreadId);
        }
      } else {
        messages := [];
      }
    }

    /** The effect's cleanup, on unmount or before the next thread. */
    method EffectCleanup()
      requires Valid()
      modifies this`channel, this`subscriptions
      ensures Valid() && channel.None? && subscriptions == multiset{}
    {
      Unsubscribe();
    }

    /** The realtime handler of the held channel: show the new row's
        messages when it has more than the old row, else re-fetch the
        thread. */
    method OnRealtimePayload(change: Change, lookup: Lookup, fetched: Result<Column, string>)
      requires Valid() && channel.Some?
      modifies this`messages, this`isLoading, this`error
      ensures Valid()
      ensures Reaction(change).Some? ==>
        messages == Reaction(change).value && isLoading == old(isLoading) && error == old(error)
      ensures Reaction(change).None? ==>
        (!isLoading && messages == Load(threadId, lookup, fetched).messages
         && error == Load(threadId, lookup, fetched).error)
    {
      var shown := Reaction(change);
      if shown.Some? {
        messages := shown.value;
        return;
      }
      LoadThreadMessages(channel.value, lookup, fetched);
    }

    /** The non-streaming request and what its reply adds. */
    method SendPlain(content: string, posted: Result<InferenceResponse, string>) returns (call: Api.Call)
      modifies this`announced, this`messages, this`error
      ensures call == Api.MessageCall(content, threadId, selectedModel)
      ensures Snapshot() == Answered(old(Snapshot()), threadId, notify, posted)
    {
      var sent := Api.SendMessage(content, threadId, selectedModel, posted);
      call := sent.0;
      var result := sent.1;
      if result.Ok? {
        var response := result.value;
        if threadId == "" && response.threadId != "" && notify {
          announced := announced + [response.threadId];
        }
        messages := messages + [Message(Assistant, response.response)];
      } else {
        error := SendFailurePrefix + result.error;
      }
    }

    /** `api.sendMessageStream` with `handleStreamChunk` as the callback:
        every callback of the stream is handled in order; `failure` is the
        rejection, if any. */
    method ReceiveStream(content: string, fetched: Api.FetchOutcome, parse: string -> Option<Payload>, shownCount: nat)
      returns (call: Api.Call, failure: Option<string>)
      modifies this`messages, this`isLoading, this`streamingStatus, this`receivedChunks, this`chunkCount,
               this`currentResponse, this`assistantOpen, this`announced, this`isTyping
      ensures call == Api.StreamCall(content, threadId, selectedModel)
      ensures failure == Api.Streamed(threadId, fetched, parse).failure
      ensures Snapshot() == Callbacks(old(Snapshot()), threadId, notify, Api.Streamed(threadId, fetched, parse).events)
      ensures var events := Api.Streamed(threadId, fetched, parse).events;
        isLoading == (old(isLoading) && !Completes(events)) && isTyping == (old(isTyping) && !Completes(events))
        && streamingStatus == (if events == [] then old(streamingStatus)
                               else ChunkStatus(events[|events| - 1].isComplete, shownCount))
    {
      var events;
      call, events, failure := Api.SendMessageStream(content, threadId, selectedModel, fetched, parse);
      HandleChunks(events, shownCount);
    }

    /** `handleStreamChunk` for each callback, in order. */
    method HandleChunks(events: seq<Event>, shownCount: nat)
      modifies this`messages, this`isLoading, this`streamingStatus, this`receivedChunks, this`chunkCount,
               this`currentResponse, this`assistantOpen, this`announced, this`isTyping
      ensures Snapshot() == Callbacks(old(Snapshot()), threadId, notify, events)
      ensures isLoading == (old(isLoading) && !Completes(events)) && isTyping == (old(isTyping) && !Completes(events))
      ensures streamingStatus == (if events == [] then old(streamingStatus)
                                  else ChunkStatus(events[|events| - 1].isComplete, shownCount))
    {
      ghost var start := Snapshot();
      for i := 0 to |events|
        invariant Snapshot() == Callbacks(start, threadId, notify, events[..i])
        invariant isLoading == (old(isLoading) && !Completes(events[..i]))
        invariant isTyping == (old(isTyping) && !Completes(events[..i]))
        invariant i == 0 ==> streamingStatus == old(streamingStatus)
        invariant i > 0 ==> streamingStatus == ChunkStatus(events[i - 1].isComplete, shownCount)
      {
        var e := events[i];
        CallbacksStep(start, threadId, notify, events, i);
        CompletesStep(events, i);
        HandleStreamChunk(e.chunk, e.isComplete, e.threadId, shownCount);
      }
      assert events[..|events|] == events;
    }

    /** The streaming branch of `handleSendMessage`: stream the message
        and, if the stream rejects, show its error and fall back to one
        non-streaming request. */
    method SendStreaming(content: string, fetched: Api.FetchOutcome, parse: string -> Option<Payload>,
                         posted: Result<InferenceResponse, string>, shownCount: nat) returns (calls: seq<Api.Call>)
      modifies this`messages, this`isLoading, this`error, this`streamingStatus,
               this`receivedChunks, this`chunkCount, this`currentResponse, this`assistantOpen,
               this`announced, this`isTyping
      ensures calls == SendCalls(content, threadId, selectedModel, true, Api.Streamed(threadId, fetched, parse).failure)
      ensures Snapshot() == StreamedSend(old(Snapshot()), threadId, notify, Api.Streamed(threadId, fetched, parse), posted)
      ensures var s := Api.Streamed(threadId, fetched, parse);
        isLoading == (old(isLoading) && !Completes(s.events)) && isTyping == (old(isTyping) && !Completes(s.events))
        && streamingStatus == (if s.failure.Some? then FallbackStatus
                               else if s.events == [] then old(streamingStatus)
                               else ChunkStatus(s.events[|s.events| - 1].isComplete, shownCount))
    {
      var call, failure := ReceiveStream(content, fetched, parse, shownCount);
      calls := [call];
      if failure.Some? {
        var fallback := FallBack(content, failure.value, posted);
        calls := calls + [fallback];
      }
    }

    /** The `catch` of the streaming branch: the stream's error is shown,
        the status says the send falls back, and one non-streaming request
        is made. */
    method FallBack(content: string, reason: string, posted: Result<InferenceResponse, string>) returns (call: Api.Call)
      modifies this`error, this`streamingStatus, this`announced, this`messages
      ensures call == Api.MessageCall(content, threadId, selectedModel)
      ensures Snapshot() == Answered(old(Snapshot()).(error := StreamErrorPrefix + reason), threadId, notify, posted)
      ensures streamingStatus == FallbackStatus
    {
      error := StreamErrorPrefix + reason;
      streamingStatus := FallbackStatus;
      call := SendPlain(content, posted);
    }

    /** The state changes `handleSendMessage` makes before any request:
        the request is marked in flight, the input becomes a user message
        and is cleared, and the reassembly is reset. */
    method BeginSend() returns (content: string)
      modifies this`messages, this`input, this`isLoading, this`error, this`streamingStatus,
               this`receivedChunks, this`chunkCount, this`currentResponse, this`assistantOpen
      ensures content == old(input)
      ensures Snapshot() == Begun(old(Snapshot()), old(input))
      ensures input == "" && isLoading && streamingStatus == ""
    {
      isLoading := true;
      error := "";
      streamingStatus := "";
      content := input;
      messages := messages + [Message(User, content)];
      input := "";
      receivedChunks := [];
      chunkCount := 0;
      currentResponse := "";
      assistantOpen := false;
    }

    /** `handleSendMessage`. Blank input or a request in flight changes
        nothing; otherwise the message is sent. Returns the requests made. */
    method HandleSendMessage(fetched: Api.FetchOutcome, parse: string -> Option<Payload>,
                             posted: Result<InferenceResponse, string>) returns (calls: seq<Api.Call>)
      requires Valid()
      modifies this`messages, this`input, this`isLoading, this`error, this`streamingStatus,
               this`receivedChunks, this`chunkCount, this`currentResponse, this`assistantOpen,
               this`announced, this`isTyping
      ensures Valid()
      ensures !Sends(old(input), old(isLoading)) ==> calls == [] && unchanged(this)
      ensures Sends(old(input), old(isLoading)) ==>
        input == "" && !isLoading && streamingStatus == "" && (isTyping ==> old(isTyping))
      ensures Sends(old(input), old(isLoading)) ==>
        calls == SendCalls(old(input), threadId, selectedModel, useStreaming, Api.Streamed(threadId, fetched, parse).failure)
      ensures Sends(old(input), old(isLoading)) ==>
        Snapshot() == AfterSend(old(Snapshot()), old(input), useStreaming, threadId, notify,
                                Api.Streamed(threadId, fetched, parse), posted)
    {
      calls := [];
      if Trim(input) == [] || isLoading {
        return;
      }
      calls := Send(fetched, parse, posted);
    }

    /** A send that goes ahead: the input becomes a user message and is
        cleared, the reassembly is reset, and the message is streamed: the
        callbacks build the reply, and if the stream rejects, its error is
        shown and one non-streaming request is made instead. With streaming
        off only the non-streaming request is made. */
    method Send(fetched: Api.FetchOutcome, parse: string -> Option<Payload>,
                posted: Result<InferenceResponse, string>) returns (calls: seq<Api.Call>)
      modifies this`messages, this`input, this`isLoading, this`error, this`streamingStatus,
               this`receivedChunks, this`chunkCount, this`currentResponse, this`assistantOpen,
               this`announced, this`isTyping
      ensures input == "" && !isLoading && streamingStatus == "" && (isTyping ==> old(isTyping))
      ensures calls == SendCalls(old(input), threadId, selectedModel, useStreaming, Api.Streamed(threadId, fetched, parse).failure)
      ensures Snapshot() == AfterSend(old(Snapshot()), old(input), useStreaming, threadId, notify,
                                      Api.Streamed(threadId, fetched, parse), posted)
    {
      var shownCount := chunkCount;
      var content := BeginSend();
      calls := Deliver(content, fetched, parse, posted, shownCount);
    }

    /** The request part of a send, up to the `finally` block that clears
        the loading flag and the status. */
    method Deliver(content: string, fetched: Api.FetchOutcome, parse: string -> Option<Payload>,
                   posted: Result<InferenceResponse, string>, shownCount: nat) returns (calls: seq<Api.Call>)
      modifies this`messages, this`isLoading, this`error, this`streamingStatus,
               this`receivedChunks, this`chunkCount, this`currentResponse, this`assistantOpen,
               this`announced, this`isTyping
      ensures !isLoading && streamingStatus == "" && (isTyping ==> old(isTyping))
      ensures calls == SendCalls(content, threadId, selectedModel, useStreaming, Api.Streamed(threadId, fetched, parse).failure)
      ensures Snapshot() == (if useStreaming then StreamedSend(old(Snapshot()), threadId, notify, Api.Streamed(threadId, fetched, parse), posted)
                             else Answered(old(Snapshot()), threadId, notify, posted))
    {
      if useStreaming {
        streamingStatus := ConnectingStatus;
        calls := SendStreaming(content, fetched, parse, posted, shownCount);
      } else {
        streamingStatus := ProcessingStatus;
        var plain := SendPlain(content, posted);
        calls := [plain];
      }
      isLoading := false;
      streamingStatus := "";
    }
  }

  /** At most one thread channel is open at any time. This follows from
      `Valid`, which every method of `Chat` keeps; it is stated apart
      because the effect's cleanup releases only the one channel in
      `channelRef`, which is safe only if no other channel is open. */
  lemma AtMostOneChannel(chat: Chat)
    requires chat.Valid()
    ensures |chat.subscriptions| <= 1
    ensures chat.channel.Some? ==> chat.channel.value in chat.subscriptions
  {
  }
}
