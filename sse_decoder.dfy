/** The client's server-sent-event decoder in `sendMessageStream`
    (src/services/api.ts), stated as pure functions over the decoded text.

    One call of `onChunk(chunk, isComplete, threadId)` is an `Event`. The
    decoder state is the latched thread id and the `isDone` flag; the carry-
    over buffer is threaded through `Run`. `JSON.parse` is a parameter: any
    function from the captured text to the truthy fields of the parsed
    object, `None` when it throws. The line terminators the data-line regex
    stops at are a parameter too (see `JsLineTerminators`). */
module SseDecoder {
  import opened Wrappers
  import opened JsText
  import opened SseSplit
  import opened FrameCodec

  /** One `onChunk(chunk, isComplete, threadId)` call; "" is an absent id. */
  datatype Event = Event(chunk: string, isComplete: bool, threadId: string)

  /** `receivedThreadId` and `isDone`. */
  datatype Decoder = Decoder(threadId: string, isDone: bool)

  datatype Batched = Batched(dec: Decoder, events: seq<Event>)

  /** How `reader.read()` behaves once the given reads are used up. */
  datatype Ending = EndOfData | ReadFailure(reason: string)

  /** The callbacks made, and the rejection the promise settles with. */
  datatype Settlement = Settlement(events: seq<Event>, failure: Option<string>)

  const DataPrefix: string := "data: "

  /** The characters at which `^` and `$` of a JavaScript regular expression
      with the `m` flag see a line break, and which `.` does not match. */
  const JsLineTerminators: set<char> := {'\n', '\r', (0x2028 as char), (0x2029 as char)}

  /** The line breaks of the event-stream format: carriage return and line
      feed only. */
  const SseLineBreaks: set<char> := {'\n', '\r'}

  /** The length of the first line of `s`. */
  function LineEnd(s: string, breaks: set<char>): (n: nat)
    ensures n <= |s|
    ensures forall i :: 0 <= i < n ==> s[i] !in breaks
    ensures n < |s| ==> s[n] in breaks
  {
    if s == [] || s[0] in breaks then 0 else 1 + LineEnd(s[1..], breaks)
  }

  /** The capture group of `/^data: (.+)$/m`: the rest of the first line that
      starts with `data: ` and has at least one character after it. */
  function DataLine(s: string, breaks: set<char>): (r: Option<string>)
    ensures r.Some? ==> r.value != [] && forall i :: 0 <= i < |r.value| ==> r.value[i] !in breaks
    decreases |s|
  {
    var n := LineEnd(s, breaks);
    if n > |DataPrefix| && s[..|DataPrefix|] == DataPrefix then Some(s[|DataPrefix|..n])
    else if n == |s| then None
    else DataLine(s[n + 1..], breaks)
  }

  /** The effect of one parsed frame: latch its thread id if none is held,
      report a truthy chunk, then report and record a `done`. The `error`
      field only throws into the per-frame catch, so it changes nothing. */
  function Apply(d: Decoder, p: Payload): (r: Batched)
    ensures r.dec.isDone == (d.isDone || p.done)
    ensures d.threadId != "" ==> r.dec.threadId == d.threadId
    ensures d.threadId == "" ==> r.dec.threadId == p.threadId
    ensures forall i :: 0 <= i < |r.events| ==> r.events[i].threadId == r.dec.threadId
  {
    var id := if p.threadId != "" && d.threadId == "" then p.threadId else d.threadId;
    Batched(
      Decoder(id, d.isDone || p.done),
      (if p.chunk != "" then [Event(p.chunk, false, id)] else [])
      + (if p.done then [Event("", true, id)] else []))
  }

  /** One complete fragment: skipped when blank, when no data line matches,
      or when `JSON.parse` throws. */
  function Step(d: Decoder, fragment: string, breaks: set<char>, parse: string -> Option<Payload>): (r: Batched)
    ensures d.isDone ==> r.dec.isDone
    ensures d.threadId != "" ==> r.dec.threadId == d.threadId
    ensures |r.events| <= 2
  {
    if Trim(fragment) == [] then Batched(d, [])
    else match DataLine(fragment, breaks)
      case None => Batched(d, [])
      case Some(capture) =>
        match parse(Trim(capture))
        case None => Batched(d, [])
        case Some(p) => Apply(d, p)
  }

  /** The `for (const message of messages)` loop over one read's fragments. */
  function Batch(d: Decoder, fragments: seq<string>, breaks: set<char>, parse: string -> Option<Payload>): (r: Batched)
    ensures d.isDone ==> r.dec.isDone
    ensures d.threadId != "" ==> r.dec.threadId == d.threadId
    ensures |r.events| <= 2 * |fragments|
    decreases |fragments|
  {
    if fragments == [] then Batched(d, [])
    else
      var first := Step(d, fragments[0], breaks, parse);
      var rest := Batch(first.dec, fragments[1..], breaks, parse);
      Batched(rest.dec, first.events + rest.events)
  }

  /** The `while (!isDone)` loop: each read is appended to the carry-over,
      the complete fragments are handled, and the last piece is kept. When
      the reads run out, the stream either ends (one completion callback,
      the carry-over dropped) or the read rejects. */
  function Run(d: Decoder, buffer: string, received: seq<string>, ending: Ending,
               breaks: set<char>, parse: string -> Option<Payload>): Settlement
    decreases |received|
  {
    if d.isDone then Settlement([], None)
    else if received == [] then
      match ending
      case EndOfData => Settlement([Event("", true, d.threadId)], None)
      case ReadFailure(reason) => Settlement([], Some(reason))
    else
      var text := buffer + received[0];
      var b := Batch(d, Fragments(text), breaks, parse);
      var rest := Run(b.dec, Remainder(text), received[1..], ending, breaks, parse);
      Settlement(b.events + rest.events, rest.failure)
  }

  // ---------------------------------------------------------------------
  // Reference decoding of the whole text at once

  /** Whether some callback signals completion. */
  predicate Completes(events: seq<Event>)
  {
    exists i :: 0 <= i < |events| && events[i].isComplete
  }

  /** The callbacks up to and including the first completion. */
  function UpToCompletion(events: seq<Event>): (r: seq<Event>)
    ensures |r| <= |events| && r == events[..|r|]
  {
    if events == [] then []
    else if events[0].isComplete then [events[0]]
    else [events[0]] + UpToCompletion(events[1..])
  }

  /** What follows the last fragment when the decoder is still running. */
  function Tail(d: Decoder, ending: Ending): seq<Event>
  {
    if !d.isDone && ending.EndOfData? then [Event("", true, d.threadId)] else []
  }

  /** Every complete fragment of the whole text handled in one batch, then
      the end of the stream. */
  function Whole(d: Decoder, text: string, ending: Ending,
                 breaks: set<char>, parse: string -> Option<Payload>): seq<Event>
  {
    var b := Batch(d, Fragments(text), breaks, parse);
    b.events + Tail(b.dec, ending)
  }

  // ---------------------------------------------------------------------
  // Frames that produce nothing

  /** Blank fragments, fragments without a data line and fragments whose
      data does not parse make no callback and leave the state alone. */
  lemma SkippedFragments(d: Decoder, fragment: string, breaks: set<char>, parse: string -> Option<Payload>)
    requires AllWhitespace(fragment) || DataLine(fragment, breaks).None?
      || parse(Trim(DataLine(fragment, breaks).value)).None?
    ensures Step(d, fragment, breaks, parse) == Batched(d, [])
  {
    TrimFacts(fragment);
  }

  /** An `error` field neither stops the stream nor changes what is
      reported. */
  lemma ErrorFieldIgnored(d: Decoder, p: Payload)
    ensures Apply(d, p) == Apply(d, p.(error := ""))
    ensures p.error != "" && p.chunk == "" && !p.done ==> Apply(d, p).events == []
  {
  }

  // ---------------------------------------------------------------------
  // Completion

  lemma {:induction false} UpToCompletionAppend(a: seq<Event>, b: seq<Event>)
    ensures UpToCompletion(a + b) == if Completes(a) then UpToCompletion(a) else a + UpToCompletion(b)
    decreases |a|
  {
    if a != [] {
      assert (a + b)[1..] == a[1..] + b;
      UpToCompletionAppend(a[1..], b);
      CompletesCons(a);
    } else {
      assert a + b == b;
    }
  }

  /** Completion is signalled by the first callback or by a later one. */
  lemma CompletesCons(a: seq<Event>)
    requires a != []
    ensures Completes(a) <==> a[0].isComplete || Completes(a[1..])
  {
    if Completes(a) && !a[0].isComplete {
      var i :| 0 <= i < |a| && a[i].isComplete;
      assert a[1..][i - 1].isComplete;
    }
    if Completes(a[1..]) {
      var i :| 0 <= i < |a[1..]| && a[1..][i].isComplete;
      assert a[i + 1].isComplete;
    }
    if a[0].isComplete {
      assert a[0].isComplete;
    }
  }

  /** A step signals completion exactly when it records `done`. */
  lemma StepCompletion(d: Decoder, fragment: string, breaks: set<char>, parse: string -> Option<Payload>)
    requires !d.isDone
    ensures var s := Step(d, fragment, breaks, parse);
      s.dec.isDone <==> Completes(s.events)
  {
    if Trim(fragment) != [] && DataLine(fragment, breaks).Some? {
      var parsed := parse(Trim(DataLine(fragment, breaks).value));
      if parsed.Some? {
        ApplyCompletion(d, parsed.value);
      }
    }
  }

  lemma ApplyCompletion(d: Decoder, p: Payload)
    requires !d.isDone
    ensures Apply(d, p).dec.isDone <==> Completes(Apply(d, p).events)
  {
    var a := Apply(d, p);
    if p.done {
      assert a.events[|a.events| - 1].isComplete;
    } else {
      assert forall i :: 0 <= i < |a.events| ==> !a.events[i].isComplete;
    }
  }

  /** The decoder stops after a batch exactly when the batch signalled
      completion. */
  lemma {:induction false} BatchCompletion(d: Decoder, fragments: seq<string>, breaks: set<char>, parse: string -> Option<Payload>)
    requires !d.isDone
    ensures var b := Batch(d, fragments, breaks, parse);
      b.dec.isDone <==> Completes(b.events)
    decreases |fragments|
  {
    if fragments != [] {
      var first := Step(d, fragments[0], breaks, parse);
      var rest := Batch(first.dec, fragments[1..], breaks, parse);
      StepCompletion(d, fragments[0], breaks, parse);
      CompletesAppend(first.events, rest.events);
      if !first.dec.isDone {
        BatchCompletion(first.dec, fragments[1..], breaks, parse);
      } else {
        BatchKeepsDone(first.dec, fragments[1..], breaks, parse);
      }
    }
  }

  lemma {:induction false} BatchKeepsDone(d: Decoder, fragments: seq<string>, breaks: set<char>, parse: string -> Option<Payload>)
    requires d.isDone
    ensures Batch(d, fragments, breaks, parse).dec.isDone
    decreases |fragments|
  {
    if fragments != [] {
      BatchKeepsDone(Step(d, fragments[0], breaks, parse).dec, fragments[1..], breaks, parse);
    }
  }

  lemma CompletesAppend(a: seq<Event>, b: seq<Event>)
    ensures Completes(a + b) <==> Completes(a) || Completes(b)
  {
    if Completes(a + b) {
      var i :| 0 <= i < |a + b| && (a + b)[i].isComplete;
      if i < |a| { assert a[i].isComplete; } else { assert b[i - |a|].isComplete; }
    }
    if Completes(a) {
      var i :| 0 <= i < |a| && a[i].isComplete;
      assert (a + b)[i].isComplete;
    }
    if Completes(b) {
      var i :| 0 <= i < |b| && b[i].isComplete;
      assert (a + b)[|a| + i].isComplete;
    }
  }

  /** Handling two lists of fragments one after the other is handling their
      concatenation. */
  lemma {:induction false} BatchAppend(d: Decoder, f: seq<string>, g: seq<string>, breaks: set<char>, parse: string -> Option<Payload>)
    ensures var first := Batch(d, f, breaks, parse);
      var second := Batch(first.dec, g, breaks, parse);
      Batch(d, f + g, breaks, parse) == Batched(second.dec, first.events + second.events)
    decreases |f|
  {
    if f == [] {
      assert f + g == g;
    } else {
      assert (f + g)[0] == f[0] && (f + g)[1..] == f[1..] + g;
      var s := Step(d, f[0], breaks, parse);
      BatchAppend(s.dec, f[1..], g, breaks, parse);
      var tail := Batch(s.dec, f[1..], breaks, parse);
      var second := Batch(tail.dec, g, breaks, parse);
      BatchUnfold(d, f, breaks, parse);
      BatchUnfold(d, f + g, breaks, parse);
      AppendAssoc(s.events, tail.events, second.events);
    }
  }

  lemma AppendAssoc<T>(a: seq<T>, b: seq<T>, c: seq<T>)
    ensures a + (b + c) == (a + b) + c
  {
  }

  lemma BatchUnfold(d: Decoder, fragments: seq<string>, breaks: set<char>, parse: string -> Option<Payload>)
    requires fragments != []
    ensures var first := Step(d, fragments[0], breaks, parse);
      var rest := Batch(first.dec, fragments[1..], breaks, parse);
      Batch(d, fragments, breaks, parse) == Batched(rest.dec, first.events + rest.events)
  {
  }

  // ---------------------------------------------------------------------
  // Independence from read boundaries

  /** However the text is cut into reads, the decoder's callbacks are a
      prefix of those of the whole text handled at once, and agree with them
      up to and including the first completion. The carry-over at each read
      is the text after the last separator, so every fragment is handled
      exactly once and in order. */
  lemma {:induction false} RunMatchesWhole(d: Decoder, buffer: string, received: seq<string>, ending: Ending,
                                           breaks: set<char>, parse: string -> Option<Payload>)
    requires !d.isDone && !ContainsSeparator(buffer)
    ensures var events := Run(d, buffer, received, ending, breaks, parse).events;
      var whole := Whole(d, buffer + Concat(received), ending, breaks, parse);
      |events| <= |whole| && events == whole[..|events|]
      && UpToCompletion(events) == UpToCompletion(whole)
    decreases |received|
  {
    if received == [] {
      UnseparatedIsRemainder(buffer);
      assert buffer + Concat(received) == buffer;
      assert Fragments(buffer) == [];
    } else {
      var text := buffer + received[0];
      var b := Batch(d, Fragments(text), breaks, parse);
      WholeByRead(d, buffer, received, ending, breaks, parse);
      var later := Whole(b.dec, Remainder(text) + Concat(received[1..]), ending, breaks, parse);
      var events := Run(b.dec, Remainder(text), received[1..], ending, breaks, parse).events;
      BatchCompletion(d, Fragments(text), breaks, parse);
      if !b.dec.isDone {
        RemainderFollowsLastSeparator(text);
        RunMatchesWhole(b.dec, Remainder(text), received[1..], ending, breaks, parse);
        AgreementAppend(b.events, events, later);
      } else {
        CompletedAgreement(b.events, later);
      }
    }
  }

  /** The first read's complete fragments come first in the decoding of the
      whole text; the rest is the decoding of its carry-over and the later
      reads. */
  lemma WholeByRead(d: Decoder, buffer: string, received: seq<string>, ending: Ending,
                    breaks: set<char>, parse: string -> Option<Payload>)
    requires received != []
    ensures var text := buffer + received[0];
      var b := Batch(d, Fragments(text), breaks, parse);
      Whole(d, buffer + Concat(received), ending, breaks, parse)
        == b.events + Whole(b.dec, Remainder(text) + Concat(received[1..]), ending, breaks, parse)
  {
    var text := buffer + received[0];
    var rest := Concat(received[1..]);
    assert Concat(received) == received[0] + rest by {
      ConcatAppend([received[0]], received[1..]);
      assert [received[0]] + received[1..] == received;
    }
    assert buffer + Concat(received) == text + rest;
    FragmentsAppend(text, rest);
    var b := Batch(d, Fragments(text), breaks, parse);
    BatchAppend(d, Fragments(text), Fragments(Remainder(text) + rest), breaks, parse);
    var second := Batch(b.dec, Fragments(Remainder(text) + rest), breaks, parse);
    AppendAssoc(b.events, second.events, Tail(second.dec, ending));
  }

  lemma AgreementAppend(a: seq<Event>, x: seq<Event>, y: seq<Event>)
    requires |x| <= |y| && x == y[..|x|] && UpToCompletion(x) == UpToCompletion(y)
    ensures |a + x| <= |a + y| && a + x == (a + y)[..|a + x|]
    ensures UpToCompletion(a + x) == UpToCompletion(a + y)
  {
    UpToCompletionAppend(a, x);
    UpToCompletionAppend(a, y);
  }

  lemma CompletedAgreement(a: seq<Event>, y: seq<Event>)
    requires Completes(a)
    ensures a + [] == (a + y)[..|a|]
    ensures UpToCompletion(a + []) == UpToCompletion(a + y)
  {
    UpToCompletionAppend(a, []);
    UpToCompletionAppend(a, y);
  }

  /** The callbacks up to and including the first completion do not depend
      on how the stream is cut into reads. */
  lemma BoundaryIndependence(d: Decoder, received1: seq<string>, received2: seq<string>, ending: Ending,
                             breaks: set<char>, parse: string -> Option<Payload>)
    requires !d.isDone && Concat(received1) == Concat(received2)
    ensures UpToCompletion(Run(d, "", received1, ending, breaks, parse).events)
         == UpToCompletion(Run(d, "", received2, ending, breaks, parse).events)
  {
    RunFromStart(d, received1, ending, breaks, parse);
    RunFromStart(d, received2, ending, breaks, parse);
  }

  /** A stream that ends (rather than failing) always signals completion. */
  lemma {:induction false} EndedStreamCompletes(d: Decoder, buffer: string, received: seq<string>,
                                                breaks: set<char>, parse: string -> Option<Payload>)
    requires !d.isDone
    ensures var s := Run(d, buffer, received, EndOfData, breaks, parse);
      s.failure == None && Completes(s.events)
    decreases |received|
  {
    if received == [] {
      assert Run(d, buffer, received, EndOfData, breaks, parse).events[0].isComplete;
    } else {
      var text := buffer + received[0];
      var b := Batch(d, Fragments(text), breaks, parse);
      var rest := Run(b.dec, Remainder(text), received[1..], EndOfData, breaks, parse);
      BatchCompletion(d, Fragments(text), breaks, parse);
      CompletesAppend(b.events, rest.events);
      if !b.dec.isDone {
        EndedStreamCompletes(b.dec, Remainder(text), received[1..], breaks, parse);
      }
    }
  }

  /** A running decoder's promise rejects exactly when the reads fail
      before any completion. */
  lemma {:induction false} RunSettles(d: Decoder, buffer: string, received: seq<string>, ending: Ending,
                                      breaks: set<char>, parse: string -> Option<Payload>)
    requires !d.isDone
    ensures var s := Run(d, buffer, received, ending, breaks, parse);
      s.failure.Some? <==> ending.ReadFailure? && !Completes(s.events)
    decreases |received|
  {
    if received != [] {
      var text := buffer + received[0];
      var b := Batch(d, Fragments(text), breaks, parse);
      var rest := Run(b.dec, Remainder(text), received[1..], ending, breaks, parse);
      BatchCompletion(d, Fragments(text), breaks, parse);
      CompletesAppend(b.events, rest.events);
      if !b.dec.isDone {
        RunSettles(b.dec, Remainder(text), received[1..], ending, breaks, parse);
      }
    } else if ending.EndOfData? {
      assert Run(d, buffer, received, ending, breaks, parse).events[0].isComplete;
    }
  }

  /** When decoding the whole text signals completion only at its last
      callback, every way of cutting the text into reads makes exactly those
      callbacks and settles without a rejection. */
  lemma CompletedRunIsWhole(d: Decoder, received: seq<string>, ending: Ending,
                            breaks: set<char>, parse: string -> Option<Payload>)
    requires !d.isDone
    requires OnlyLastCompletes(Whole(d, Concat(received), ending, breaks, parse))
    ensures Run(d, "", received, ending, breaks, parse)
         == Settlement(Whole(d, Concat(received), ending, breaks, parse), None)
  {
    var whole := Whole(d, Concat(received), ending, breaks, parse);
    CompletesAtLast(whole);
    RunFromStart(d, received, ending, breaks, parse);
    RunSettles(d, "", received, ending, breaks, parse);
    SettledAsWhole(Run(d, "", received, ending, breaks, parse), whole, ending);
  }

  /** When decoding the whole text signals no completion and the reads
      fail, every way of cutting the text into reads makes exactly those
      callbacks and rejects with the read failure. */
  lemma IncompleteRunIsWhole(d: Decoder, received: seq<string>, reason: string,
                             breaks: set<char>, parse: string -> Option<Payload>)
    requires !d.isDone
    requires !Completes(Whole(d, Concat(received), ReadFailure(reason), breaks, parse))
    ensures Run(d, "", received, ReadFailure(reason), breaks, parse)
         == Settlement(Whole(d, Concat(received), ReadFailure(reason), breaks, parse), Some(reason))
  {
    var whole := Whole(d, Concat(received), ReadFailure(reason), breaks, parse);
    var s := Run(d, "", received, ReadFailure(reason), breaks, parse);
    RunFromStart(d, received, ReadFailure(reason), breaks, parse);
    NoCompletionIsWhole(whole);
    NoCompletionIsWhole(s.events);
    RunSettles(d, "", received, ReadFailure(reason), breaks, parse);
    RunFailureIsRead(d, "", received, ReadFailure(reason), breaks, parse);
  }

  /** Callbacks without a completion are their own prefix up to completion. */
  lemma {:induction false} NoCompletionIsWhole(events: seq<Event>)
    requires !Completes(events)
    ensures UpToCompletion(events) == events
    decreases |events|
  {
    if events != [] {
      assert !events[0].isComplete;
      NoCompletionIsWhole(events[1..]);
      assert [events[0]] + events[1..] == events;
    }
  }

  /** The only reason a run rejects with is the reason the reads failed. */
  lemma {:induction false} RunFailureIsRead(d: Decoder, buffer: string, received: seq<string>, ending: Ending,
                                            breaks: set<char>, parse: string -> Option<Payload>)
    ensures var s := Run(d, buffer, received, ending, breaks, parse);
      s.failure.Some? ==> ending == ReadFailure(s.failure.value)
    decreases |received|
  {
    if !d.isDone && received != [] {
      var text := buffer + received[0];
      var b := Batch(d, Fragments(text), breaks, parse);
      RunFailureIsRead(b.dec, Remainder(text), received[1..], ending, breaks, parse);
    }
  }

  /** A settlement whose callbacks agree with `whole` up to completion, when
      `whole` ends at its only completion, is `whole` without a rejection. */
  lemma SettledAsWhole(s: Settlement, whole: seq<Event>, ending: Ending)
    requires |s.events| <= |whole| && s.events == whole[..|s.events|]
    requires UpToCompletion(s.events) == UpToCompletion(whole)
    requires UpToCompletion(whole) == whole && Completes(whole)
    requires s.failure.Some? <==> ending.ReadFailure? && !Completes(s.events)
    ensures s == Settlement(whole, None)
  {
    PrefixReachingCompletion(s.events, whole);
  }

  /** `RunMatchesWhole` for a stream read from its start. */
  lemma RunFromStart(d: Decoder, received: seq<string>, ending: Ending,
                     breaks: set<char>, parse: string -> Option<Payload>)
    requires !d.isDone
    ensures var events := Run(d, "", received, ending, breaks, parse).events;
      var whole := Whole(d, Concat(received), ending, breaks, parse);
      |events| <= |whole| && events == whole[..|events|]
      && UpToCompletion(events) == UpToCompletion(whole)
  {
    assert !ContainsSeparator("");
    assert "" + Concat(received) == Concat(received);
    RunMatchesWhole(d, "", received, ending, breaks, parse);
  }

  /** A prefix that agrees up to completion with callbacks that end at
      their only completion is all of them. */
  lemma PrefixReachingCompletion(x: seq<Event>, y: seq<Event>)
    requires |x| <= |y| && x == y[..|x|] && UpToCompletion(x) == UpToCompletion(y) && UpToCompletion(y) == y
    ensures x == y
  {
  }

  /** The last callback signals completion and no earlier one does. */
  predicate OnlyLastCompletes(events: seq<Event>)
  {
    events != [] && events[|events| - 1].isComplete
    && forall i :: 0 <= i < |events| - 1 ==> !events[i].isComplete
  }

  /** Callbacks whose only completion is the last one are their own prefix
      up to completion. */
  lemma {:induction false} CompletesAtLast(events: seq<Event>)
    requires OnlyLastCompletes(events)
    ensures UpToCompletion(events) == events && Completes(events)
    decreases |events|
  {
    assert events[|events| - 1].isComplete;
    if |events| > 1 {
      var rest := events[1..];
      assert forall i :: 0 <= i < |rest| - 1 ==> !rest[i].isComplete by {
        forall i | 0 <= i < |rest| - 1 ensures !rest[i].isComplete {
          assert rest[i] == events[i + 1];
        }
      }
      CompletesAtLast(rest);
      assert !events[0].isComplete;
      assert [events[0]] + rest == events;
    }
  }

  // ---------------------------------------------------------------------
  // The thread id is latched once

  /** Once some callback carries a thread id, every later one carries the
      same id. */
  predicate LatchedOnce(events: seq<Event>)
  {
    forall i, j :: 0 <= i < j < |events| && events[i].threadId != "" ==> events[j].threadId == events[i].threadId
  }

  /** Every callback carries `id`. */
  predicate AllCarry(events: seq<Event>, id: string)
  {
    forall i :: 0 <= i < |events| ==> events[i].threadId == id
  }

  /** Every callback carries no id or the final one. */
  predicate AtMost(events: seq<Event>, id: string)
  {
    forall i :: 0 <= i < |events| ==> events[i].threadId in {"", id}
  }

  lemma StepLatch(d: Decoder, fragment: string, breaks: set<char>, parse: string -> Option<Payload>)
    ensures var s := Step(d, fragment, breaks, parse);
      AllCarry(s.events, s.dec.threadId)
      && (d.threadId != "" ==> s.dec.threadId == d.threadId)
  {
  }

  lemma LatchAppend(a: seq<Event>, b: seq<Event>, x: string, y: string)
    requires AllCarry(a, x) && LatchedOnce(b)
    requires x != "" ==> AllCarry(b, x)
    ensures LatchedOnce(a + b)
  {
    forall i, j | 0 <= i < j < |a + b| && (a + b)[i].threadId != ""
      ensures (a + b)[j].threadId == (a + b)[i].threadId
    {
      if i >= |a| {
        assert (a + b)[i] == b[i - |a|] && (a + b)[j] == b[j - |a|];
      } else if j < |a| {
        assert (a + b)[i] == a[i] && (a + b)[j] == a[j];
      } else {
        assert (a + b)[i] == a[i] && (a + b)[j] == b[j - |a|];
      }
    }
  }

  /** A batch starting with an id keeps it and reports only it; any batch
      reports ids in latched order, each either absent or the final one. */
  lemma {:induction false} BatchLatch(d: Decoder, fragments: seq<string>, breaks: set<char>, parse: string -> Option<Payload>)
    ensures var b := Batch(d, fragments, breaks, parse);
      LatchedOnce(b.events) && AtMost(b.events, b.dec.threadId)
      && (d.threadId != "" ==> b.dec.threadId == d.threadId && AllCarry(b.events, d.threadId))
    decreases |fragments|
  {
    if fragments != [] {
      var first := Step(d, fragments[0], breaks, parse);
      var rest := Batch(first.dec, fragments[1..], breaks, parse);
      StepLatch(d, fragments[0], breaks, parse);
      BatchLatch(first.dec, fragments[1..], breaks, parse);
      LatchAppend(first.events, rest.events, first.dec.threadId, rest.dec.threadId);
    }
  }

  /** Over the whole stream: the caller's thread id, when given, is the one
      every callback carries; otherwise the first `thread_id` frame sets it
      and no later frame changes it. */
  lemma {:induction false} RunLatch(d: Decoder, buffer: string, received: seq<string>, ending: Ending,
                                    breaks: set<char>, parse: string -> Option<Payload>)
    ensures var events := Run(d, buffer, received, ending, breaks, parse).events;
      LatchedOnce(events) && (d.threadId != "" ==> AllCarry(events, d.threadId))
    decreases |received|
  {
    if !d.isDone && received != [] {
      var text := buffer + received[0];
      var b := Batch(d, Fragments(text), breaks, parse);
      var rest := Run(b.dec, Remainder(text), received[1..], ending, breaks, parse);
      BatchLatch(d, Fragments(text), breaks, parse);
      RunLatch(b.dec, Remainder(text), received[1..], ending, breaks, parse);
      LatchAppendAtMost(b.events, rest.events, b.dec.threadId);
    }
  }

  lemma LatchAppendAtMost(a: seq<Event>, b: seq<Event>, x: string)
    requires LatchedOnce(a) && AtMost(a, x) && LatchedOnce(b)
    requires x != "" ==> AllCarry(b, x)
    ensures LatchedOnce(a + b)
  {
    forall i, j | 0 <= i < j < |a + b| && (a + b)[i].threadId != ""
      ensures (a + b)[j].threadId == (a + b)[i].threadId
    {
      if i >= |a| {
        assert (a + b)[i] == b[i - |a|] && (a + b)[j] == b[j - |a|];
      } else if j < |a| {
        assert (a + b)[i] == a[i] && (a + b)[j] == a[j];
      } else {
        assert (a + b)[i] == a[i] && (a + b)[j] == b[j - |a|];
      }
    }
  }
}
