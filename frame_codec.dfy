/** The JSON text carried by one `data: ` line of the chat stream.

    A stream frame is a flat JSON object whose members the client reads by
    truthiness: `thread_id`, `chunk`, `done` and `error`. EncodePayload is
    `JSON.stringify` on such an object (members in declaration order, string
    escapes as ECMAScript specifies them). ParsePayload is `JSON.parse`
    restricted to flat objects whose members are strings or booleans; any
    other text is rejected, which is what the client's per-frame `catch`
    makes of a parse failure. */
module FrameCodec {
  import opened Wrappers

  /** One frame as the client sees it; "" and false stand for an absent
      (falsy) member. */
  datatype Payload = Payload(threadId: string, chunk: string, done: bool, error: string)

  datatype Value = Str(text: string) | Bool(flag: bool)

  datatype Member = Member(key: string, value: Value)

  const Quote: char := '"'
  const Backslash: char := '\\'

  predicate IsControl(c: char) { c as int < 0x20 }

  predicate IsPrintableAscii(c: char) { 0x20 <= c as int < 0x7F }

  /** No character of `s` belongs to `banned`. */
  predicate Avoids(s: string, banned: set<char>)
  {
    forall i :: 0 <= i < |s| ==> s[i] !in banned
  }

  lemma AvoidsAppend(a: string, b: string, banned: set<char>)
    requires Avoids(a, banned) && Avoids(b, banned)
    ensures Avoids(a + b, banned)
  {
  }

  // ---------------------------------------------------------------------
  // Encoding (JSON.stringify)

  function HexDigit(n: nat): (c: char)
    requires n < 16
    ensures IsPrintableAscii(c)
  {
    if n < 10 then ('0' as int + n) as char else ('a' as int + n - 10) as char
  }

  /** The escape sequence JSON.stringify writes for one character of a string. */
  function EscapeChar(c: char): (r: string)
    ensures |r| >= 1
  {
    if c == Quote then [Backslash, Quote]
    else if c == Backslash then [Backslash, Backslash]
    else if c == 8 as char then [Backslash, 'b']
    else if c == 12 as char then [Backslash, 'f']
    else if c == '\n' then [Backslash, 'n']
    else if c == '\r' then [Backslash, 'r']
    else if c == '\t' then [Backslash, 't']
    else if IsControl(c) then [Backslash, 'u', '0', '0', HexDigit(c as int / 16), HexDigit(c as int % 16)]
    else [c]
  }

  function Escape(s: string): string
  {
    if s == [] then "" else EscapeChar(s[0]) + Escape(s[1..])
  }

  function QuoteString(s: string): string
  {
    [Quote] + Escape(s) + [Quote]
  }

  function EncodeValue(v: Value): string
  {
    match v
    case Str(t) => QuoteString(t)
    case Bool(b) => if b then "true" else "false"
  }

  function EncodeMember(m: Member): string
  {
    QuoteString(m.key) + ":" + EncodeValue(m.value)
  }

  /** The members joined by commas. */
  function EncodeMembers(ms: seq<Member>): string
  {
    if ms == [] then ""
    else if |ms| == 1 then EncodeMember(ms[0])
    else EncodeMember(ms[0]) + "," + EncodeMembers(ms[1..])
  }

  /** The member names of a frame object. */
  const ThreadIdKey: string := "thread_id"
  const ChunkKey: string := "chunk"
  const DoneKey: string := "done"
  const ErrorKey: string := "error"

  /** The object literal a sender builds for a payload: only truthy members. */
  function Members(p: Payload): seq<Member>
  {
    Present(p.threadId != "", Member(ThreadIdKey, Str(p.threadId)))
    + Present(p.chunk != "", Member(ChunkKey, Str(p.chunk)))
    + Present(p.done, Member(DoneKey, Bool(true)))
    + Present(p.error != "", Member(ErrorKey, Str(p.error)))
  }

  /** The member `m` when `present`, nothing otherwise. */
  function Present(present: bool, m: Member): seq<Member>
  {
    if present then [m] else []
  }

  /** `JSON.stringify(obj)` for the frame object of `p`. */
  function EncodePayload(p: Payload): (r: string)
    ensures |r| >= 2 && r[0] == '{' && r[|r| - 1] == '}'
  {
    "{" + EncodeMembers(Members(p)) + "}"
  }

  // ---------------------------------------------------------------------
  // Decoding (JSON.parse, flat objects only)

  function HexValue(c: char): Option<nat>
  {
    if '0' <= c <= '9' then Some(c as int - '0' as int)
    else if 'a' <= c <= 'f' then Some(c as int - 'a' as int + 10)
    else if 'A' <= c <= 'F' then Some(c as int - 'A' as int + 10)
    else None
  }

  /** The character named by the four hex digits of a `\uXXXX` escape; a lone
      surrogate half is rejected. */
  function HexCodePoint(h: string): Option<char>
    requires |h| == 4
  {
    var d0 :- HexValue(h[0]);
    var d1 :- HexValue(h[1]);
    var d2 :- HexValue(h[2]);
    var d3 :- HexValue(h[3]);
    var code := ((d0 * 16 + d1) * 16 + d2) * 16 + d3;
    if 0xD800 <= code < 0xE000 || code >= 0x11_0000 then None else Some(code as char)
  }

  function ShortEscape(e: char): Option<char>
  {
    if e == Quote then Some(Quote)
    else if e == Backslash then Some(Backslash)
    else if e == '/' then Some('/')
    else if e == 'b' then Some(8 as char)
    else if e == 'f' then Some(12 as char)
    else if e == 'n' then Some('\n')
    else if e == 'r' then Some('\r')
    else if e == 't' then Some('\t')
    else None
  }

  datatype Parsed<T> = Parsed(value: T, rest: string)

  /** The body of a string literal whose opening quote has been consumed: its
      characters and the text after the closing quote. */
  function ParseStringBody(s: string): (r: Option<Parsed<string>>)
    ensures r.Some? ==> |r.value.rest| < |s|
    decreases |s|
  {
    if s == [] then None
    else if s[0] == Quote then Some(Parsed("", s[1..]))
    else if s[0] == Backslash then
      if |s| < 2 then None
      else if s[1] == 'u' then
        if |s| < 6 then None
        else
          var c :- HexCodePoint(s[2..6]);
          var tail :- ParseStringBody(s[6..]);
          Some(Parsed([c] + tail.value, tail.rest))
      else
        var c :- ShortEscape(s[1]);
        var tail :- ParseStringBody(s[2..]);
        Some(Parsed([c] + tail.value, tail.rest))
    else if IsControl(s[0]) then None
    else
      var tail :- ParseStringBody(s[1..]);
      Some(Parsed([s[0]] + tail.value, tail.rest))
  }

  function ParseValue(s: string): (r: Option<Parsed<Value>>)
    ensures r.Some? ==> |r.value.rest| < |s|
  {
    if s != [] && s[0] == Quote then
      var body :- ParseStringBody(s[1..]);
      Some(Parsed(Str(body.value), body.rest))
    else if |s| >= 4 && s[..4] == "true" then Some(Parsed(Bool(true), s[4..]))
    else if |s| >= 5 && s[..5] == "false" then Some(Parsed(Bool(false), s[5..]))
    else None
  }

  /** A non-empty member list up to and including the closing brace, which
      must end the text. */
  function ParseMembers(s: string): Option<seq<Member>>
    decreases |s|
  {
    if s == [] || s[0] != Quote then None
    else
      var key :- ParseStringBody(s[1..]);
      if key.rest == [] || key.rest[0] != ':' then None
      else
        var v :- ParseValue(key.rest[1..]);
        var m := Member(key.value, v.value);
        if v.rest == "}" then Some([m])
        else if v.rest != [] && v.rest[0] == ',' then
          var tail :- ParseMembers(v.rest[1..]);
          Some([m] + tail)
        else None
  }

  function ParseObject(s: string): Option<seq<Member>>
  {
    if s == "{}" then Some([])
    else if s != [] && s[0] == '{' then ParseMembers(s[1..])
    else None
  }

  /** Reading one member into the frame; a later duplicate key wins, as with
      JSON.parse. A member of another type reads as falsy. */
  function ApplyMember(p: Payload, m: Member): Payload
  {
    if m.key == ThreadIdKey then p.(threadId := if m.value.Str? then m.value.text else "")
    else if m.key == ChunkKey then p.(chunk := if m.value.Str? then m.value.text else "")
    else if m.key == DoneKey then p.(done := if m.value.Bool? then m.value.flag else m.value.text != "")
    else if m.key == ErrorKey then p.(error := if m.value.Str? then m.value.text else "")
    else p
  }

  const NoMembers: Payload := Payload("", "", false, "")

  function FromMembers(ms: seq<Member>): Payload
  {
    if ms == [] then NoMembers else ApplyMember(FromMembers(ms[..|ms| - 1]), ms[|ms| - 1])
  }

  /** `JSON.parse(s)` as the client uses it: None where it would throw or
      where the result is not a flat frame object. */
  function ParsePayload(s: string): Option<Payload>
  {
    var ms :- ParseObject(s);
    Some(FromMembers(ms))
  }

  // ---------------------------------------------------------------------
  // Round trip

  lemma HexDigitValue(n: nat)
    requires n < 16
    ensures HexValue(HexDigit(n)) == Some(n)
  {
  }

  lemma ParseEscapedChar(c: char, t: string)
    ensures ParseStringBody(EscapeChar(c) + t)
         == (var tail :- ParseStringBody(t); Some(Parsed([c] + tail.value, tail.rest)))
  {
    if IsShortEscaped(c) {
      ParseShortEscape(c, t);
    } else if IsControl(c) {
      ParseUnicodeEscape(c, t);
    } else {
      assert EscapeChar(c) + t == [c] + t;
      assert ([c] + t)[1..] == t;
    }
  }

  /** The characters JSON.stringify writes as a backslash and one letter. */
  predicate IsShortEscaped(c: char)
  {
    c == Quote || c == Backslash || c == 8 as char || c == 12 as char || c == '\n' || c == '\r' || c == '\t'
  }

  lemma ParseShortEscape(c: char, t: string)
    requires IsShortEscaped(c)
    ensures ParseStringBody(EscapeChar(c) + t)
         == (var tail :- ParseStringBody(t); Some(Parsed([c] + tail.value, tail.rest)))
  {
    var e := EscapeChar(c);
    assert |e| == 2 && e[0] == Backslash && ShortEscape(e[1]) == Some(c);
    assert (e + t)[2..] == t;
  }

  lemma ParseUnicodeEscape(c: char, t: string)
    requires IsControl(c) && !IsShortEscaped(c)
    ensures ParseStringBody(EscapeChar(c) + t)
         == (var tail :- ParseStringBody(t); Some(Parsed([c] + tail.value, tail.rest)))
  {
    var hi, lo := c as int / 16, c as int % 16;
    var e := EscapeChar(c);
    assert e == [Backslash, 'u', '0', '0', HexDigit(hi), HexDigit(lo)];
    HexDigitValue(hi);
    HexDigitValue(lo);
    assert (e + t)[2..6] == ['0', '0', HexDigit(hi), HexDigit(lo)];
    assert HexCodePoint((e + t)[2..6]) == Some(c);
    assert (e + t)[6..] == t;
  }

  lemma {:induction false} ParseQuotedBody(x: string, rest: string)
    ensures ParseStringBody(Escape(x) + [Quote] + rest) == Some(Parsed(x, rest))
    decreases |x|
  {
    if x == [] {
      assert Escape(x) + [Quote] + rest == [Quote] + rest;
    } else {
      ParseQuotedBody(x[1..], rest);
      ParseEscapedChar(x[0], Escape(x[1..]) + [Quote] + rest);
      assert Escape(x) + [Quote] + rest == EscapeChar(x[0]) + (Escape(x[1..]) + [Quote] + rest);
      assert [x[0]] + x[1..] == x;
    }
  }

  lemma ParseEncodedValue(v: Value, rest: string)
    ensures ParseValue(EncodeValue(v) + rest) == Some(Parsed(v, rest))
  {
    match v
    case Str(t) =>
      ParseQuotedBody(t, rest);
      QuotedFront(Escape(t), rest);
    case Bool(b) =>
      if b {
        ParseTrue(rest);
      } else {
        ParseFalse(rest);
      }
  }

  lemma ParseTrue(rest: string)
    ensures ParseValue("true" + rest) == Some(Parsed(Bool(true), rest))
  {
    assert ("true" + rest)[4..] == rest;
  }

  lemma ParseFalse(rest: string)
    ensures ParseValue("false" + rest) == Some(Parsed(Bool(false), rest))
  {
    var text := "false" + rest;
    assert text[0] == 'f' && text[..4][0] == 'f';
    assert text[..5] == "false";
    assert text[5..] == rest;
  }

  lemma ParseEncodedMember(m: Member, rest: string)
    ensures ParseStringBody((EncodeMember(m) + rest)[1..])
         == Some(Parsed(m.key, ":" + EncodeValue(m.value) + rest))
    ensures |EncodeMember(m) + rest| > 0 && (EncodeMember(m) + rest)[0] == Quote
  {
    var after := ":" + EncodeValue(m.value) + rest;
    ParseQuotedBody(m.key, after);
    MemberRegroup(QuoteString(m.key), EncodeValue(m.value), rest);
    QuotedFront(Escape(m.key), after);
  }

  /** The text after an opening quote, whatever the quoted part is. */
  lemma QuotedFront(body: string, rest: string)
    ensures var text := [Quote] + body + [Quote] + rest;
      text[0] == Quote && text[1..] == body + [Quote] + rest
  {
    var text := [Quote] + body + [Quote] + rest;
    assert text == [Quote] + (body + [Quote] + rest);
  }

  lemma MemberRegroup(quoted: string, value: string, rest: string)
    ensures quoted + ":" + value + rest == quoted + (":" + value + rest)
  {
  }

  /** One member is read off the front of an encoding: the key, the colon
      and the value, leaving the text after the value. */
  lemma ParseMemberHead(m: Member, after: string)
    ensures var text := EncodeMember(m) + after;
      && text != [] && text[0] == Quote
      && ParseStringBody(text[1..]).Some?
      && ParseStringBody(text[1..]).value.value == m.key
      && var rest := ParseStringBody(text[1..]).value.rest;
      && rest != [] && rest[0] == ':'
      && ParseValue(rest[1..]) == Some(Parsed(m.value, after))
  {
    ParseEncodedMember(m, after);
    ParseEncodedValue(m.value, after);
    ColonFront(EncodeValue(m.value), after);
  }

  lemma ColonFront(value: string, after: string)
    ensures var rest := ":" + value + after;
      rest != [] && rest[0] == ':' && rest[1..] == value + after
  {
    var rest := ":" + value + after;
    assert rest == [':'] + (value + after);
  }

  lemma ParseLastMember(m: Member)
    ensures ParseMembers(EncodeMember(m) + "}") == Some([m])
  {
    ParseMemberHead(m, "}");
  }

  lemma ParseMemberThenMore(m: Member, more: string, tail: seq<Member>)
    requires ParseMembers(more) == Some(tail)
    ensures ParseMembers(EncodeMember(m) + ("," + more)) == Some([m] + tail)
  {
    var after := "," + more;
    assert after[0] == ',' && after[1..] == more;
    assert after != "}" by { assert after[0] != '}'; }
    ParseMemberHead(m, after);
  }

  lemma {:induction false} ParseEncodedMembers(ms: seq<Member>)
    requires ms != []
    ensures ParseMembers(EncodeMembers(ms) + "}") == Some(ms)
    decreases |ms|
  {
    var m := ms[0];
    if |ms| == 1 {
      ParseLastMember(m);
      assert [m] == ms;
    } else {
      var tail := ms[1..];
      ParseEncodedMembers(tail);
      ParseMemberThenMore(m, EncodeMembers(tail) + "}", tail);
      EncodeMembersCons(ms);
      assert [m] + tail == ms;
    }
  }

  lemma EncodeMembersCons(ms: seq<Member>)
    requires |ms| > 1
    ensures EncodeMembers(ms) + "}" == EncodeMember(ms[0]) + ("," + (EncodeMembers(ms[1..]) + "}"))
  {
    var head, rest := EncodeMember(ms[0]), EncodeMembers(ms[1..]);
    assert EncodeMembers(ms) == head + "," + rest;
    CommaRegroup(head, rest);
  }

  lemma CommaRegroup(head: string, rest: string)
    ensures head + "," + rest + "}" == head + ("," + (rest + "}"))
  {
  }

  lemma FromMembersOfPayload(p: Payload)
    ensures FromMembers(Members(p)) == p
  {
    var t := Present(p.threadId != "", Member(ThreadIdKey, Str(p.threadId)));
    var c := Present(p.chunk != "", Member(ChunkKey, Str(p.chunk)));
    var d := Present(p.done, Member(DoneKey, Bool(true)));
    var e := Present(p.error != "", Member(ErrorKey, Str(p.error)));
    FromMembersSnoc(t, c);
    FromMembersSnoc(t + c, d);
    FromMembersSnoc(t + c + d, e);
  }

  lemma FromMembersSnoc(ms: seq<Member>, opt: seq<Member>)
    requires |opt| <= 1
    ensures FromMembers(ms + opt) == if opt == [] then FromMembers(ms) else ApplyMember(FromMembers(ms), opt[0])
  {
    if opt != [] {
      assert (ms + opt)[..|ms + opt| - 1] == ms;
    } else {
      assert ms + opt == ms;
    }
  }

  /** Decoding what was encoded gives back the frame: the codec law the
      streaming round trip rests on. */
  lemma ParsePayloadInvertsEncoding(p: Payload)
    ensures ParsePayload(EncodePayload(p)) == Some(p)
  {
    ParseEncodedObject(Members(p));
    FromMembersOfPayload(p);
  }

  lemma ParseEncodedObject(ms: seq<Member>)
    ensures ParseObject("{" + EncodeMembers(ms) + "}") == Some(ms)
  {
    var s := "{" + EncodeMembers(ms) + "}";
    if ms == [] {
      assert s == "{}";
    } else {
      ParseEncodedMembers(ms);
      EncodeMembersNonEmpty(ms);
      BraceFront(EncodeMembers(ms));
    }
  }

  lemma BraceFront(body: string)
    requires body != []
    ensures var s := "{" + body + "}";
      s != "{}" && s[0] == '{' && s[1..] == body + "}"
  {
    var s := "{" + body + "}";
    assert |s| >= 3;
    assert s == "{" + (body + "}");
  }

  lemma EncodeMembersNonEmpty(ms: seq<Member>)
    requires ms != []
    ensures |EncodeMembers(ms)| >= 2
  {
  }

  // ---------------------------------------------------------------------
  // Which characters an encoding can contain

  /** Every character of an escaped string is printable ASCII or a
      non-control character copied from the string itself, so an escaped
      string avoids any set of non-printable characters that the string
      avoids outside the control range. */
  lemma {:induction false} EscapeAvoids(x: string, banned: set<char>)
    requires forall c :: c in banned ==> !IsPrintableAscii(c)
    requires Avoids(x, Visible(banned))
    ensures Avoids(Escape(x), banned)
    decreases |x|
  {
    if x != [] {
      EscapeAvoids(x[1..], banned);
      var e := EscapeChar(x[0]);
      assert x[0] !in Visible(banned);
      assert Avoids(e, banned);
      AvoidsAppend(e, Escape(x[1..]), banned);
    }
  }

  /** The members of `banned` outside the control range. */
  function Visible(banned: set<char>): set<char>
  {
    set c | c in banned && !IsControl(c)
  }

  lemma PrintableAvoids(s: string, banned: set<char>)
    requires forall c :: c in banned ==> !IsPrintableAscii(c)
    requires forall i :: 0 <= i < |s| ==> IsPrintableAscii(s[i])
    ensures Avoids(s, Visible(banned))
  {
  }

  predicate MemberAvoids(m: Member, banned: set<char>)
  {
    Avoids(Escape(m.key), banned) && (m.value.Str? ==> Avoids(Escape(m.value.text), banned))
  }

  lemma MemberEncodingAvoids(m: Member, banned: set<char>)
    requires forall c :: c in banned ==> !IsPrintableAscii(c)
    requires MemberAvoids(m, banned)
    ensures Avoids(EncodeMember(m), banned)
  {
    assert Avoids([Quote], banned) && Avoids(":", banned);
    AvoidsAppend([Quote], Escape(m.key), banned);
    AvoidsAppend([Quote] + Escape(m.key), [Quote], banned);
    AvoidsAppend(QuoteString(m.key), ":", banned);
    match m.value
    case Str(t) =>
      AvoidsAppend([Quote], Escape(t), banned);
      AvoidsAppend([Quote] + Escape(t), [Quote], banned);
      AvoidsAppend(QuoteString(m.key) + ":", QuoteString(t), banned);
    case Bool(b) =>
      assert Avoids("true", banned) && Avoids("false", banned);
      AvoidsAppend(QuoteString(m.key) + ":", EncodeValue(m.value), banned);
  }

  lemma {:induction false} MembersEncodingAvoids(ms: seq<Member>, banned: set<char>)
    requires forall c :: c in banned ==> !IsPrintableAscii(c)
    requires forall m :: m in ms ==> MemberAvoids(m, banned)
    ensures Avoids(EncodeMembers(ms), banned)
    decreases |ms|
  {
    if ms != [] {
      MemberEncodingAvoids(ms[0], banned);
      if |ms| > 1 {
        MembersEncodingAvoids(ms[1..], banned);
        assert Avoids(",", banned);
        AvoidsAppend(EncodeMember(ms[0]), ",", banned);
        AvoidsAppend(EncodeMember(ms[0]) + ",", EncodeMembers(ms[1..]), banned);
      }
    }
  }

  /** The escaped texts of a payload's string members avoid `banned`. */
  predicate StringsAvoid(p: Payload, banned: set<char>)
  {
    var visible := Visible(banned);
    Avoids(p.threadId, visible) && Avoids(p.chunk, visible) && Avoids(p.error, visible)
  }

  /** An encoded frame contains a character of `banned` (a set with no
      printable ASCII in it) only where one of its strings does: JSON.stringify
      escapes every control character and copies every other one. */
  lemma EncodedPayloadAvoids(p: Payload, banned: set<char>)
    requires forall c :: c in banned ==> !IsPrintableAscii(c)
    requires StringsAvoid(p, banned)
    ensures Avoids(EncodePayload(p), banned)
  {
    MembersOfPayloadAvoid(p, banned);
    var ms := Members(p);
    MembersEncodingAvoids(ms, banned);
    assert Avoids("{", banned) && Avoids("}", banned);
    AvoidsAppend("{", EncodeMembers(ms), banned);
    AvoidsAppend("{" + EncodeMembers(ms), "}", banned);
  }

  lemma MembersOfPayloadAvoid(p: Payload, banned: set<char>)
    requires forall c :: c in banned ==> !IsPrintableAscii(c)
    requires StringsAvoid(p, banned)
    ensures forall m :: m in Members(p) ==> MemberAvoids(m, banned)
  {
    KeysAvoid(banned);
    StrMemberAvoids(ThreadIdKey, p.threadId, banned);
    StrMemberAvoids(ChunkKey, p.chunk, banned);
    StrMemberAvoids(ErrorKey, p.error, banned);
    assert MemberAvoids(Member(DoneKey, Bool(true)), banned);
    EachMemberAvoids(p, banned);
  }

  lemma EachMemberAvoids(p: Payload, banned: set<char>)
    requires MemberAvoids(Member(ThreadIdKey, Str(p.threadId)), banned)
    requires MemberAvoids(Member(ChunkKey, Str(p.chunk)), banned)
    requires MemberAvoids(Member(DoneKey, Bool(true)), banned)
    requires MemberAvoids(Member(ErrorKey, Str(p.error)), banned)
    ensures forall m :: m in Members(p) ==> MemberAvoids(m, banned)
  {
    MembersOfPayloadAre(p);
  }

  lemma StrMemberAvoids(key: string, text: string, banned: set<char>)
    requires forall c :: c in banned ==> !IsPrintableAscii(c)
    requires Avoids(Escape(key), banned) && Avoids(text, Visible(banned))
    ensures MemberAvoids(Member(key, Str(text)), banned)
  {
    EscapeAvoids(text, banned);
  }

  lemma MembersOfPayloadAre(p: Payload)
    ensures forall m :: m in Members(p) ==>
      m == Member(ThreadIdKey, Str(p.threadId)) || m == Member(ChunkKey, Str(p.chunk))
      || m == Member(DoneKey, Bool(true)) || m == Member(ErrorKey, Str(p.error))
  {
    var t := Present(p.threadId != "", Member(ThreadIdKey, Str(p.threadId)));
    var c := Present(p.chunk != "", Member(ChunkKey, Str(p.chunk)));
    var d := Present(p.done, Member(DoneKey, Bool(true)));
    var e := Present(p.error != "", Member(ErrorKey, Str(p.error)));
    forall m | m in Members(p)
      ensures m == Member(ThreadIdKey, Str(p.threadId)) || m == Member(ChunkKey, Str(p.chunk))
        || m == Member(DoneKey, Bool(true)) || m == Member(ErrorKey, Str(p.error))
    {
      assert Members(p) == t + c + d + e;
      InPieces(m, t + c, d, e);
      if m in t + c {
        assert t + c + [] == t + c;
        InPieces(m, t, c, []);
      }
    }
  }

  lemma InPieces<T>(x: T, a: seq<T>, b: seq<T>, c: seq<T>)
    requires x in a + b + c
    ensures x in a || x in b || x in c
  {
  }

  lemma KeysAvoid(banned: set<char>)
    requires forall c :: c in banned ==> !IsPrintableAscii(c)
    ensures Avoids(Escape(ThreadIdKey), banned) && Avoids(Escape(ChunkKey), banned)
    ensures Avoids(Escape(DoneKey), banned) && Avoids(Escape(ErrorKey), banned)
  {
    PrintableAvoids(ThreadIdKey, banned);
    PrintableAvoids(ChunkKey, banned);
    PrintableAvoids(DoneKey, banned);
    PrintableAvoids(ErrorKey, banned);
    EscapeAvoids(ThreadIdKey, banned);
    EscapeAvoids(ChunkKey, banned);
    EscapeAvoids(DoneKey, banned);
    EscapeAvoids(ErrorKey, banned);
  }
  // ---------------------------------------------------------------------
  // The laws the stream relies on

  /** What decoding a stream needs of a JSON codec for payloads: parsing
      gives back what was encoded, an encoding is wrapped in braces (so
      trimming leaves it alone), and it holds a character of `breaks` only
      where one of the payload's strings holds it. */
  ghost predicate CodecLaws(stringify: Payload -> string, parse: string -> Option<Payload>, breaks: set<char>)
  {
    forall p: Payload ::
      parse(stringify(p)) == Some(p)
      && |stringify(p)| >= 2 && stringify(p)[0] == '{' && stringify(p)[|stringify(p)| - 1] == '}'
      && (StringsAvoid(p, breaks) ==> Avoids(stringify(p), breaks))
  }

  /** JSON.stringify and JSON.parse on frame objects obey the laws for any
      set of line breaks outside printable ASCII. */
  lemma CodecSatisfiesLaws(breaks: set<char>)
    requires forall c :: c in breaks ==> !IsPrintableAscii(c)
    ensures CodecLaws(EncodePayload, ParsePayload, breaks)
  {
    forall p: Payload
      ensures ParsePayload(EncodePayload(p)) == Some(p)
      ensures StringsAvoid(p, breaks) ==> Avoids(EncodePayload(p), breaks)
    {
      ParsePayloadInvertsEncoding(p);
      if StringsAvoid(p, breaks) {
        EncodedPayloadAvoids(p, breaks);
      }
    }
  }
}
