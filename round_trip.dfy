/** The OpenAI route's event stream read back by the client's decoder.

    Whatever the codec, as long as it obeys `CodecLaws`, and however the
    bytes are cut into reads, the client latches the route's thread id,
    reports every non-empty delta once and in order, and signals completion
    once, at the end. With the line breaks of the event-stream format this
    holds for every delta; with the line terminators of a JavaScript
    regular expression it fails for a delta holding U+2028 or U+2029, which
    `JSON.stringify` leaves unescaped. */
module StreamRoundTrip {
  import opened Wrappers
  import opened JsText
  import opened SseSplit
  import opened FrameCodec
  import opened SseDecoder
  import opened OpenAiRoute

  /** The callbacks for the chunks: one per chunk, in order, with `id`. */
  function ChunkEvents(chunks: seq<string>, id: string): seq<Event>
  {
    if chunks == [] then [] else [Event(chunks[0], false, id)] + ChunkEvents(chunks[1..], id)
  }

  /** The callbacks a client should make for a whole stream. */
  function Expected(chunks: seq<string>, id: string): seq<Event>
  {
    ChunkEvents(chunks, id) + [Event("", true, id)]
  }

  /** The `data:` lines of the frames, without their separators. */
  function Lines(stringify: Payload -> string, ps: seq<Payload>): seq<string>
  {
    if ps == [] then [] else [DataPrefix + stringify(ps[0])] + Lines(stringify, ps[1..])
  }

  /** The line-break sets a decoder may use: line feed is one of them and
      no printable ASCII character is. */
  predicate LineBreaks(breaks: set<char>)
  {
    '\n' in breaks && forall c :: c in breaks ==> !IsPrintableAscii(c)
  }

  /** The stream the route sends for a client's thread id and deltas
      decodes, over any cutting into reads, to one callback per non-empty
      delta and one completion, all carrying the route's thread id, and the
      promise resolves. The thread id and the deltas must avoid the visible
      characters of `breaks`. */
  lemma RoundTrip(stringify: Payload -> string, parse: string -> Option<Payload>, breaks: set<char>,
                  clientThread: string, nowMillis: nat, deltas: seq<Option<string>>,
                  received: seq<string>, ending: Ending)
    requires CodecLaws(stringify, parse, breaks) && LineBreaks(breaks)
    requires Avoids(ThreadIdFor(clientThread, nowMillis), Visible(breaks))
    requires forall i :: 0 <= i < |Contents(deltas)| ==> Avoids(Contents(deltas)[i], Visible(breaks))
    requires Concat(received) == Concat(Frames(stringify, StreamPayloads(ThreadIdFor(clientThread, nowMillis), Contents(deltas))))
    ensures Run(Decoder(clientThread, false), "", received, ending, breaks, parse)
         == Settlement(Expected(Contents(deltas), ThreadIdFor(clientThread, nowMillis)), None)
  {
    var sid := ThreadIdFor(clientThread, nowMillis);
    var chunks := Contents(deltas);
    var d := Decoder(clientThread, false);
    var ps := StreamPayloads(sid, chunks);
    var text := Concat(Frames(stringify, ps));
    StreamAvoids(stringify, parse, breaks, sid, chunks);
    assert forall p :: p in ps ==> '\n' !in stringify(p) by {
      forall p | p in ps
        ensures '\n' !in stringify(p)
      {
        StreamMember(id := sid, chunks := chunks, p := p);
        assert Avoids(stringify(p), breaks);
      }
    }
    FramesSplit(stringify, ps);
    assert Fragments(text) == Lines(stringify, ps);
    StreamBatch(stringify, parse, breaks, clientThread, sid, chunks);
    var whole := Expected(chunks, sid);
    assert Whole(d, text, ending, breaks, parse) == whole;
    ExpectedCompletesLast(chunks, sid);
    CompletedRunIsWhole(d, received, ending, breaks, parse);
  }

  /** A stream the route cuts short, because the completion service threw
      after some deltas, decodes over any cutting into reads to one callback
      per non-empty delta so far and no completion, and the promise rejects
      with the read failure. */
  lemma AbortedRoundTrip(stringify: Payload -> string, parse: string -> Option<Payload>, breaks: set<char>,
                         clientThread: string, nowMillis: nat, deltas: seq<Option<string>>,
                         received: seq<string>, reason: string)
    requires CodecLaws(stringify, parse, breaks) && LineBreaks(breaks)
    requires Avoids(ThreadIdFor(clientThread, nowMillis), Visible(breaks))
    requires forall i :: 0 <= i < |Contents(deltas)| ==> Avoids(Contents(deltas)[i], Visible(breaks))
    requires Concat(received) == Concat(Frames(stringify, AbortedPayloads(ThreadIdFor(clientThread, nowMillis), Contents(deltas))))
    ensures Run(Decoder(clientThread, false), "", received, ReadFailure(reason), breaks, parse)
         == Settlement(ChunkEvents(Contents(deltas), ThreadIdFor(clientThread, nowMillis)), Some(reason))
  {
    var sid := ThreadIdFor(clientThread, nowMillis);
    var chunks := Contents(deltas);
    var d := Decoder(clientThread, false);
    var ps := AbortedPayloads(sid, chunks);
    var text := Concat(Frames(stringify, ps));
    StreamAvoids(stringify, parse, breaks, sid, chunks);
    assert forall p :: p in ps ==> '\n' !in stringify(p) by {
      forall p | p in ps
        ensures '\n' !in stringify(p)
      {
        assert p in StreamPayloads(sid, chunks);
        StreamMember(id := sid, chunks := chunks, p := p);
        assert Avoids(stringify(p), breaks);
      }
    }
    FramesSplit(stringify, ps);
    assert Fragments(text) == Lines(stringify, ps);
    LinesAppend(stringify, [ThreadPayload(sid)], ChunkPayloads(chunks));
    ThreadLine(stringify, parse, breaks, clientThread, sid);
    BatchChunks(stringify, parse, breaks, sid, chunks);
    BatchAppend(d, Lines(stringify, [ThreadPayload(sid)]), Lines(stringify, ChunkPayloads(chunks)), breaks, parse);
    assert [] + ChunkEvents(chunks, sid) == ChunkEvents(chunks, sid);
    var whole := ChunkEvents(chunks, sid);
    assert Whole(d, text, ReadFailure(reason), breaks, parse) == whole + [];
    assert whole + [] == whole;
    ChunkEventsShape(chunks, sid);
    IncompleteRunIsWhole(d, received, reason, breaks, parse);
  }

  /** With the line breaks of the event-stream format, no condition on the
      thread id or the deltas is needed. */
  lemma EventStreamRoundTrip(stringify: Payload -> string, parse: string -> Option<Payload>,
                             clientThread: string, nowMillis: nat, deltas: seq<Option<string>>,
                             received: seq<string>, ending: Ending)
    requires CodecLaws(stringify, parse, SseLineBreaks)
    requires Concat(received) == Concat(Frames(stringify, StreamPayloads(ThreadIdFor(clientThread, nowMillis), Contents(deltas))))
    ensures Run(Decoder(clientThread, false), "", received, ending, SseLineBreaks, parse)
         == Settlement(Expected(Contents(deltas), ThreadIdFor(clientThread, nowMillis)), None)
  {
    NothingVisible();
    RoundTrip(stringify, parse, SseLineBreaks, clientThread, nowMillis, deltas, received, ending);
  }

  /** With the line terminators of a JavaScript regular expression, as the
      client splits its buffer, every chunk is reported as long as neither
      the route's thread id nor any delta holds U+2028 or U+2029. */
  lemma JsRoundTrip(stringify: Payload -> string, parse: string -> Option<Payload>,
                    clientThread: string, nowMillis: nat, deltas: seq<Option<string>>,
                    received: seq<string>, ending: Ending)
    requires CodecLaws(stringify, parse, JsLineTerminators)
    requires Avoids(ThreadIdFor(clientThread, nowMillis), RawTerminators)
    requires forall i :: 0 <= i < |Contents(deltas)| ==> Avoids(Contents(deltas)[i], RawTerminators)
    requires Concat(received) == Concat(Frames(stringify, StreamPayloads(ThreadIdFor(clientThread, nowMillis), Contents(deltas))))
    ensures Run(Decoder(clientThread, false), "", received, ending, JsLineTerminators, parse)
         == Settlement(Expected(Contents(deltas), ThreadIdFor(clientThread, nowMillis)), None)
  {
    assert Visible(JsLineTerminators) == RawTerminators;
    RoundTrip(stringify, parse, JsLineTerminators, clientThread, nowMillis, deltas, received, ending);
  }

  // ---------------------------------------------------------------------
  // Line separators inside a chunk

  /** The characters that end a line for a JavaScript regular expression
      but that JSON.stringify copies into its output unescaped. */
  const RawTerminators: set<char> := {(0x2028 as char), (0x2029 as char)}

  /** The encoding of a one-member frame up to its string's first
      character. */
  function MemberHead(key: string): string
  {
    "{" + QuoteString(key) + ":" + [Quote]
  }

  /** As written, the decoder drops the frame of any chunk holding U+2028 or
      U+2029, whatever else the chunk holds: the data line is cut at the
      first such character `t`, the captured text is an unterminated JSON
      string and fails to parse, trimmed or not, so no callback reports the
      chunk. `EventStreamRoundTrip` shows that with the event-stream line
      breaks every chunk is reported. */
  lemma LineSeparatorDropsChunk(d: Decoder, x: string, t: char, y: string)
    requires t in RawTerminators
    requires Avoids(x, RawTerminators)
    ensures Step(d, DataPrefix + EncodePayload(ChunkPayload(x + [t] + y)), JsLineTerminators, ParsePayload)
         == Batched(d, [])
  {
    ChunkEncoding(x + [t] + y);
    ChunkKeyAvoids();
    StepDropsString(d, ChunkKey, x, t, y);
  }

  lemma ChunkKeyAvoids()
    ensures Avoids(Escape(ChunkKey), JsLineTerminators)
  {
    KeysAvoid(JsLineTerminators);
  }

  /** The frame of a chunk is the one-member object of its `chunk` member. */
  lemma ChunkEncoding(c: string)
    requires c != ""
    ensures EncodePayload(ChunkPayload(c)) == "{" + EncodeMember(Member(ChunkKey, Str(c))) + "}"
  {
    assert Members(ChunkPayload(c)) == [Member(ChunkKey, Str(c))];
  }

  /** A one-member frame whose string holds `t` is skipped as written. */
  lemma StepDropsString(d: Decoder, key: string, x: string, t: char, y: string)
    requires t in RawTerminators
    requires Avoids(x, RawTerminators) && Avoids(Escape(key), JsLineTerminators)
    ensures Step(d, DataPrefix + ("{" + EncodeMember(Member(key, Str(x + [t] + y))) + "}"), JsLineTerminators, ParsePayload)
         == Batched(d, [])
  {
    var line := DataPrefix + ("{" + EncodeMember(Member(key, Str(x + [t] + y))) + "}");
    CutCapture(key, x, t, y);
    TrimmedCaptureRejected(key, x);
    SkippedFragments(d, line, JsLineTerminators, ParsePayload);
  }

  /** The captured text, trimmed, does not parse. */
  lemma TrimmedCaptureRejected(key: string, x: string)
    ensures ParsePayload(Trim(MemberHead(key) + Escape(x))) == None
  {
    var shorter := TrimmedCapture(key, x);
    CaptureRejected(key, shorter);
  }

  /** Trimming the captured text removes only white space copied from the
      end of the string, so it leaves the head and the escaping of a prefix
      of the string. */
  lemma TrimmedCapture(key: string, x: string) returns (shorter: string)
    ensures Trim(MemberHead(key) + Escape(x)) == MemberHead(key) + Escape(shorter)
  {
    var head := MemberHead(key);
    var s := head + Escape(x);
    assert s[0] == '{';
    assert TrimStart(s) == s;
    shorter := TrimEndEscaped(head, x);
  }

  lemma {:induction false} TrimEndEscaped(head: string, x: string) returns (shorter: string)
    requires head != [] && !IsJsWhitespace(head[|head| - 1])
    ensures TrimEnd(head + Escape(x)) == head + Escape(shorter)
    decreases |x|
  {
    if x == [] {
      assert head + Escape(x) == head;
      shorter := x;
    } else {
      var init, last := x[..|x| - 1], x[|x| - 1];
      assert x == init + [last];
      EscapeAppend(init, [last]);
      assert Escape([last]) == EscapeChar(last);
      var s := head + Escape(x);
      assert s == (head + Escape(init)) + EscapeChar(last);
      if IsJsWhitespace(s[|s| - 1]) {
        EscapeCharWhitespace(last);
        assert s[..|s| - 1] == head + Escape(init);
        shorter := TrimEndEscaped(head, init);
      } else {
        shorter := x;
      }
    }
  }

  /** Only a character copied unescaped can end its escaping in white space. */
  lemma EscapeCharWhitespace(c: char)
    requires IsJsWhitespace(EscapeChar(c)[|EscapeChar(c)| - 1])
    ensures EscapeChar(c) == [c]
  {
  }

  /** As written, the data line of such a frame ends just before `t`. */
  lemma CutCapture(key: string, x: string, t: char, y: string)
    requires t in RawTerminators
    requires Avoids(x, RawTerminators) && Avoids(Escape(key), JsLineTerminators)
    ensures DataLine(DataPrefix + ("{" + EncodeMember(Member(key, Str(x + [t] + y))) + "}"), JsLineTerminators)
         == Some(MemberHead(key) + Escape(x))
  {
    var capture := MemberHead(key) + Escape(x);
    var tail := [t] + Escape(y) + [Quote, '}'];
    FrameAtTerminator(key, x, t, y);
    CaptureAvoids(key, x);
    assert tail[0] == t;
    CutAt(capture, tail, JsLineTerminators);
  }

  /** The frame's line is its captured head, then `t` and the rest. */
  lemma FrameAtTerminator(key: string, x: string, t: char, y: string)
    requires t in RawTerminators
    ensures DataPrefix + ("{" + EncodeMember(Member(key, Str(x + [t] + y))) + "}")
         == DataPrefix + (MemberHead(key) + Escape(x)) + ([t] + Escape(y) + [Quote, '}'])
  {
    var c := x + [t] + y;
    var ex, ey := Escape(x), Escape(y);
    EscapeAround(x, t, y);
    assert EncodeMember(Member(key, Str(c))) == QuoteString(key) + ":" + ([Quote] + (ex + [t] + ey) + [Quote]);
    Regroup("{", QuoteString(key), ":", [Quote], ex, [t], ey, [Quote], "}");
    AppendAssoc(DataPrefix, MemberHead(key) + ex, [t] + ey + [Quote, '}']);
  }

  /** A line terminator is copied by escaping. */
  lemma EscapeAround(x: string, t: char, y: string)
    requires t in RawTerminators
    ensures Escape(x + [t] + y) == Escape(x) + [t] + Escape(y)
  {
    EscapeAppend(x + [t], y);
    EscapeAppend(x, [t]);
    assert Escape([t]) == [t];
  }

  /** The line up to the captured text holds no line terminator. */
  lemma CaptureAvoids(key: string, x: string)
    requires Avoids(x, RawTerminators) && Avoids(Escape(key), JsLineTerminators)
    ensures MemberHead(key) + Escape(x) != []
    ensures Avoids(DataPrefix + (MemberHead(key) + Escape(x)), JsLineTerminators)
  {
    MemberHeadAvoids(key, JsLineTerminators);
    assert Visible(JsLineTerminators) == RawTerminators;
    EscapeAvoids(x, JsLineTerminators);
    AvoidsAppend(DataPrefix + MemberHead(key), Escape(x), JsLineTerminators);
    AppendAssoc(DataPrefix, MemberHead(key), Escape(x));
  }

  lemma Regroup<T>(a: seq<T>, b: seq<T>, c: seq<T>, q: seq<T>, e: seq<T>, f: seq<T>, g: seq<T>, q2: seq<T>, h: seq<T>)
    ensures a + (b + c + (q + (e + f + g) + q2)) + h == (a + b + c + q) + e + (f + g + q2 + h)
  {
  }

  /** The data-line pattern captures a line up to its first break. */
  lemma CutAt(capture: string, tail: string, breaks: set<char>)
    requires capture != [] && Avoids(DataPrefix + capture, breaks)
    requires tail != [] && tail[0] in breaks
    ensures DataLine(DataPrefix + capture + tail, breaks) == Some(capture)
  {
    var pre := DataPrefix + capture;
    var line := pre + tail;
    var n := LineEnd(line, breaks);
    assert line[|pre|] == tail[0];
    assert n == |pre|;
    assert line[..|DataPrefix|] == DataPrefix;
    assert line[|DataPrefix|..n] == capture;
  }

  lemma MemberHeadAvoids(key: string, banned: set<char>)
    requires Avoids(Escape(key), banned)
    requires forall c :: c in banned ==> !IsPrintableAscii(c)
    ensures Avoids(DataPrefix + MemberHead(key), banned)
  {
  }

  /** The captured text is an object whose only string never closes. */
  lemma CaptureRejected(key: string, x: string)
    ensures ParsePayload(MemberHead(key) + Escape(x)) == None
  {
    HeadShape(key, x);
    ObjectBody(MemberHead(key) + Escape(x));
    MembersUnclosed(key, x);
  }

  lemma HeadShape(key: string, x: string)
    ensures var s := MemberHead(key) + Escape(x);
      |s| > 2 && s[0] == '{'
      && s[1..] == [Quote] + (Escape(key) + [Quote] + (":" + [Quote] + Escape(x)))
  {
    var members := [Quote] + (Escape(key) + [Quote] + (":" + [Quote] + Escape(x)));
    Regroup6("{", [Quote], Escape(key), [Quote], ":", [Quote], Escape(x));
    assert MemberHead(key) + Escape(x) == "{" + members;
    assert ("{" + members)[1..] == members;
  }

  lemma Regroup6<T>(a: seq<T>, q: seq<T>, e: seq<T>, q2: seq<T>, c: seq<T>, q3: seq<T>, x: seq<T>)
    ensures a + (q + e + q2) + c + q3 + x == a + (q + (e + q2 + (c + q3 + x)))
  {
  }

  /** Text opening a brace, other than the empty object, is read as members. */
  lemma ObjectBody(s: string)
    requires |s| > 2 && s[0] == '{'
    ensures ParseObject(s) == ParseMembers(s[1..])
  {
  }

  /** After its key, the member's string value never closes. */
  lemma MembersUnclosed(key: string, x: string)
    ensures ParseMembers([Quote] + (Escape(key) + [Quote] + (":" + [Quote] + Escape(x)))) == None
  {
    var after := ":" + [Quote] + Escape(x);
    var s := [Quote] + (Escape(key) + [Quote] + after);
    ConsFront(Quote, Escape(key) + [Quote] + after);
    ParseQuotedBody(key, after);
    ColonFront([Quote], Escape(x));
    OpenStringValue(x);
    ValueRejected(s, key, after);
  }

  lemma ConsFront<T>(h: T, t: seq<T>)
    ensures [h] + t != [] && ([h] + t)[0] == h && ([h] + t)[1..] == t
  {
  }

  /** A member whose value does not parse makes the member list fail. */
  lemma ValueRejected(s: string, key: string, after: string)
    requires s != [] && s[0] == Quote && ParseStringBody(s[1..]) == Some(Parsed(key, after))
    requires after != [] && after[0] == ':' && ParseValue(after[1..]) == None
    ensures ParseMembers(s) == None
  {
  }

  /** A string value without its closing quote does not parse. */
  lemma OpenStringValue(x: string)
    ensures ParseValue([Quote] + Escape(x)) == None
  {
    UnclosedString(x);
    assert ([Quote] + Escape(x))[1..] == Escape(x);
  }

  lemma {:induction false} EscapeAppend(a: string, b: string)
    ensures Escape(a + b) == Escape(a) + Escape(b)
    decreases |a|
  {
    if a == [] {
      assert a + b == b;
    } else {
      assert (a + b)[0] == a[0] && (a + b)[1..] == a[1..] + b;
      EscapeAppend(a[1..], b);
    }
  }

  /** An escaped string without its closing quote does not parse. */
  lemma {:induction false} UnclosedString(x: string)
    ensures ParseStringBody(Escape(x)) == None
    decreases |x|
  {
    if x != [] {
      UnclosedString(x[1..]);
      ParseEscapedChar(x[0], Escape(x[1..]));
    }
  }

  // ---------------------------------------------------------------------
  // The pieces

  /** Both event-stream line breaks are control characters. */
  lemma NothingVisible()
    ensures forall s: string :: Avoids(s, Visible(SseLineBreaks))
  {
    assert Visible(SseLineBreaks) == {};
  }

  /** The encodings the stream is made of hold no line break. */
  predicate EncodingsAvoid(stringify: Payload -> string, breaks: set<char>, id: string, chunks: seq<string>)
  {
    Avoids(stringify(ThreadPayload(id)), breaks)
    && Avoids(stringify(DonePayload), breaks)
    && forall c :: c in chunks ==> Avoids(stringify(ChunkPayload(c)), breaks)
  }

  lemma StreamAvoids(stringify: Payload -> string, parse: string -> Option<Payload>, breaks: set<char>,
                     id: string, chunks: seq<string>)
    requires CodecLaws(stringify, parse, breaks)
    requires Avoids(id, Visible(breaks))
    requires forall i :: 0 <= i < |chunks| ==> Avoids(chunks[i], Visible(breaks))
    ensures EncodingsAvoid(stringify, breaks, id, chunks)
  {
    assert StringsAvoid(ThreadPayload(id), breaks);
    assert StringsAvoid(DonePayload, breaks);
    forall c | c in chunks
      ensures Avoids(stringify(ChunkPayload(c)), breaks)
    {
      assert StringsAvoid(ChunkPayload(c), breaks);
    }
  }

  /** The frames' text splits into their lines and an empty remainder. */
  lemma {:induction false} FramesSplit(stringify: Payload -> string, ps: seq<Payload>)
    requires forall p :: p in ps ==> '\n' !in stringify(p)
    ensures Split(Concat(Frames(stringify, ps))) == Lines(stringify, ps) + [""]
    decreases |ps|
  {
    if ps != [] {
      var line := DataPrefix + stringify(ps[0]);
      var rest := Concat(Frames(stringify, ps[1..]));
      assert Concat(Frames(stringify, ps)) == line + Separator + rest;
      assert '\n' !in stringify(ps[0]);
      assert forall i :: 0 <= i < |line| ==> line[i] != '\n' by {
        forall i | 0 <= i < |line|
          ensures line[i] != '\n'
        {
          if i >= |DataPrefix| {
            assert line[i] == stringify(ps[0])[i - |DataPrefix|];
          }
        }
      }
      SplitAfterLine(line, rest);
      FramesSplit(stringify, ps[1..]);
    }
  }

  /** A line carrying an encoded payload is handled as that payload. */
  lemma StepOnLine(parse: string -> Option<Payload>, breaks: set<char>, d: Decoder, json: string, p: Payload)
    requires LineBreaks(breaks) && Avoids(json, breaks)
    requires Encodes(json, p, parse)
    ensures Step(d, DataPrefix + json, breaks, parse) == Apply(d, p)
  {
    TrimmedParse(json, p, parse);
    DataLineOfLine(json, breaks);
    NotBlank(DataPrefix + json);
    StepParsed(d, json, breaks, parse, p);
  }

  /** `json` is braced and parses back to `p`. */
  predicate Encodes(json: string, p: Payload, parse: string -> Option<Payload>)
  {
    parse(json) == Some(p) && |json| >= 2 && json[0] == '{' && json[|json| - 1] == '}'
  }

  /** Trimming a braced encoding changes nothing, so it still parses. */
  lemma TrimmedParse(json: string, p: Payload, parse: string -> Option<Payload>)
    requires Encodes(json, p, parse)
    ensures parse(Trim(json)) == Some(p)
  {
  }

  /** A non-blank line whose data line parses once trimmed is handled as
      the parsed payload. */
  lemma StepParsed(d: Decoder, json: string, breaks: set<char>, parse: string -> Option<Payload>, p: Payload)
    requires Trim(DataPrefix + json) != [] && DataLine(DataPrefix + json, breaks) == Some(json)
    requires parse(Trim(json)) == Some(p)
    ensures Step(d, DataPrefix + json, breaks, parse) == Apply(d, p)
  {
  }

  /** The laws at one payload. */
  lemma LawsAt(stringify: Payload -> string, parse: string -> Option<Payload>, breaks: set<char>, p: Payload)
    requires CodecLaws(stringify, parse, breaks)
    ensures Encodes(stringify(p), p, parse)
  {
  }

  /** The data-line pattern captures the whole encoding after `data: `. */
  lemma DataLineOfLine(json: string, breaks: set<char>)
    requires LineBreaks(breaks) && json != [] && Avoids(json, breaks)
    ensures DataLine(DataPrefix + json, breaks) == Some(json)
  {
    var line := DataPrefix + json;
    var n := LineEnd(line, breaks);
    assert n == |line|;
    assert line[..|DataPrefix|] == DataPrefix;
    assert line[|DataPrefix|..n] == json;
  }

  lemma NotBlank(line: string)
    requires |line| > 0 && line[0] == 'd'
    ensures Trim(line) != []
  {
    TrimFacts(line);
    assert !IsJsWhitespace(line[0]);
  }

  /** The thread frame, the chunk frames and the done frame, handled in
      order by a decoder that held `clientThread`. */
  lemma StreamBatch(stringify: Payload -> string, parse: string -> Option<Payload>, breaks: set<char>,
                    clientThread: string, id: string, chunks: seq<string>)
    requires CodecLaws(stringify, parse, breaks) && LineBreaks(breaks)
    requires id != "" && (clientThread == "" || clientThread == id)
    requires forall i :: 0 <= i < |chunks| ==> chunks[i] != ""
    requires EncodingsAvoid(stringify, breaks, id, chunks)
    ensures Batch(Decoder(clientThread, false), Lines(stringify, StreamPayloads(id, chunks)), breaks, parse)
         == Batched(Decoder(id, true), Expected(chunks, id))
  {
    var d := Decoder(clientThread, false);
    var held := Decoder(id, false);
    var first := Lines(stringify, [ThreadPayload(id)]);
    var middle := Lines(stringify, ChunkPayloads(chunks));
    var last := Lines(stringify, [DonePayload]);
    StreamLines(stringify, id, chunks);
    ThreadLine(stringify, parse, breaks, clientThread, id);
    BatchChunks(stringify, parse, breaks, id, chunks);
    DoneLine(stringify, parse, breaks, id);
    ThreeParts(d, held, first, middle, last, breaks, parse, ChunkEvents(chunks, id), Decoder(id, true), [Event("", true, id)]);
  }

  /** Lines handled in three runs: a silent one, one that keeps the state,
      and a last one. */
  lemma ThreeParts(d: Decoder, held: Decoder, first: seq<string>, middle: seq<string>, last: seq<string>,
                   breaks: set<char>, parse: string -> Option<Payload>,
                   events: seq<Event>, done: Decoder, final: seq<Event>)
    requires Batch(d, first, breaks, parse) == Batched(held, [])
    requires Batch(held, middle, breaks, parse) == Batched(held, events)
    requires Batch(held, last, breaks, parse) == Batched(done, final)
    ensures Batch(d, first + middle + last, breaks, parse) == Batched(done, events + final)
  {
    BatchAppend(d, first, middle, breaks, parse);
    assert [] + events == events;
    BatchAppend(d, first + middle, last, breaks, parse);
  }

  /** The stream's lines: the thread line, the chunk lines, the done line. */
  lemma StreamLines(stringify: Payload -> string, id: string, chunks: seq<string>)
    ensures Lines(stringify, StreamPayloads(id, chunks))
         == Lines(stringify, [ThreadPayload(id)]) + Lines(stringify, ChunkPayloads(chunks))
            + Lines(stringify, [DonePayload])
  {
    var cps := ChunkPayloads(chunks);
    LinesAppend(stringify, [ThreadPayload(id)], cps);
    LinesAppend(stringify, [ThreadPayload(id)] + cps, [DonePayload]);
  }

  /** The thread line latches the route's id and makes no callback. */
  lemma ThreadLine(stringify: Payload -> string, parse: string -> Option<Payload>, breaks: set<char>,
                   clientThread: string, id: string)
    requires CodecLaws(stringify, parse, breaks) && LineBreaks(breaks)
    requires id != "" && (clientThread == "" || clientThread == id)
    requires Avoids(stringify(ThreadPayload(id)), breaks)
    ensures Batch(Decoder(clientThread, false), Lines(stringify, [ThreadPayload(id)]), breaks, parse)
         == Batched(Decoder(id, false), [])
  {
    var d := Decoder(clientThread, false);
    OneLine(stringify, ThreadPayload(id));
    LawsAt(stringify, parse, breaks, ThreadPayload(id));
    StepOnLine(parse, breaks, d, stringify(ThreadPayload(id)), ThreadPayload(id));
    SingleLine(d, Lines(stringify, [ThreadPayload(id)]), breaks, parse);
  }

  lemma OneLine(stringify: Payload -> string, p: Payload)
    ensures Lines(stringify, [p]) == [DataPrefix + stringify(p)]
  {
  }

  /** The done line signals completion and records it. */
  lemma DoneLine(stringify: Payload -> string, parse: string -> Option<Payload>, breaks: set<char>, id: string)
    requires CodecLaws(stringify, parse, breaks) && LineBreaks(breaks)
    requires Avoids(stringify(DonePayload), breaks)
    ensures Batch(Decoder(id, false), Lines(stringify, [DonePayload]), breaks, parse)
         == Batched(Decoder(id, true), [Event("", true, id)])
  {
    var held := Decoder(id, false);
    OneLine(stringify, DonePayload);
    LawsAt(stringify, parse, breaks, DonePayload);
    StepOnLine(parse, breaks, held, stringify(DonePayload), DonePayload);
    SingleLine(held, Lines(stringify, [DonePayload]), breaks, parse);
  }

  lemma SingleLine(d: Decoder, lines: seq<string>, breaks: set<char>, parse: string -> Option<Payload>)
    requires |lines| == 1
    ensures Batch(d, lines, breaks, parse) == Step(d, lines[0], breaks, parse)
  {
    BatchUnfold(d, lines, breaks, parse);
  }

  /** Chunk frames handled by a decoder that holds `id`. */
  lemma {:induction false} BatchChunks(stringify: Payload -> string, parse: string -> Option<Payload>, breaks: set<char>,
                                       id: string, chunks: seq<string>)
    requires CodecLaws(stringify, parse, breaks) && LineBreaks(breaks)
    requires id != ""
    requires forall i :: 0 <= i < |chunks| ==> chunks[i] != ""
    requires forall c :: c in chunks ==> Avoids(stringify(ChunkPayload(c)), breaks)
    ensures Batch(Decoder(id, false), Lines(stringify, ChunkPayloads(chunks)), breaks, parse)
         == Batched(Decoder(id, false), ChunkEvents(chunks, id))
    decreases |chunks|
  {
    if chunks != [] {
      var d := Decoder(id, false);
      var lines := Lines(stringify, ChunkPayloads(chunks));
      var rest := Lines(stringify, ChunkPayloads(chunks[1..]));
      assert ChunkPayloads(chunks) == [ChunkPayload(chunks[0])] + ChunkPayloads(chunks[1..]);
      assert lines == [DataPrefix + stringify(ChunkPayload(chunks[0]))] + rest;
      assert chunks[0] in chunks;
      LawsAt(stringify, parse, breaks, ChunkPayload(chunks[0]));
      StepOnLine(parse, breaks, d, stringify(ChunkPayload(chunks[0])), ChunkPayload(chunks[0]));
      assert Step(d, lines[0], breaks, parse) == Batched(d, [Event(chunks[0], false, id)]);
      assert forall c :: c in chunks[1..] ==> c in chunks;
      BatchChunks(stringify, parse, breaks, id, chunks[1..]);
      BatchUnfold(d, lines, breaks, parse);
      assert lines[1..] == rest;
    }
  }

  /** Every payload of a stream is its thread payload, a chunk payload or
      the done payload. */
  lemma StreamMember(id: string, chunks: seq<string>, p: Payload)
    requires p in StreamPayloads(id, chunks)
    ensures p == ThreadPayload(id) || p == DonePayload || exists c :: c in chunks && p == ChunkPayload(c)
  {
    ChunkPayloadsShape(chunks);
    if p in ChunkPayloads(chunks) {
      var i :| 0 <= i < |ChunkPayloads(chunks)| && ChunkPayloads(chunks)[i] == p;
      assert chunks[i] in chunks;
    }
  }

  lemma {:induction false} LinesAppend(stringify: Payload -> string, a: seq<Payload>, b: seq<Payload>)
    ensures Lines(stringify, a + b) == Lines(stringify, a) + Lines(stringify, b)
    decreases |a|
  {
    if a == [] {
      assert a + b == b;
    } else {
      assert (a + b)[1..] == a[1..] + b;
      LinesAppend(stringify, a[1..], b);
    }
  }

  /** The expected callbacks signal completion once, at the end. */
  lemma {:induction false} ExpectedCompletesLast(chunks: seq<string>, id: string)
    ensures OnlyLastCompletes(Expected(chunks, id))
  {
    ChunkEventsShape(chunks, id);
  }

  /** One non-completing callback per chunk, in order, each with `id`. */
  lemma {:induction false} ChunkEventsShape(chunks: seq<string>, id: string)
    ensures |ChunkEvents(chunks, id)| == |chunks|
    ensures forall i :: 0 <= i < |chunks| ==> ChunkEvents(chunks, id)[i] == Event(chunks[i], false, id)
    decreases |chunks|
  {
    if chunks != [] {
      ChunkEventsShape(chunks[1..], id);
    }
  }
}
