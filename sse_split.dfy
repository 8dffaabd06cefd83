/** `buffer.split('\n\n')` as the streaming client uses it: the text is cut
    at every leftmost, non-overlapping blank-line separator. The client keeps
    the last piece as carry-over and hands the others on as complete
    server-sent-event fragments. */
module SseSplit {

  const Separator: string := "\n\n"

  predicate HasSeparatorAt(s: string, i: int)
  {
    0 <= i < |s| - 1 && s[i] == '\n' && s[i + 1] == '\n'
  }

  predicate ContainsSeparator(s: string)
  {
    exists i :: 0 <= i < |s| && HasSeparatorAt(s, i)
  }

  /** JavaScript's `s.split("\n\n")`. */
  function Split(s: string): (parts: seq<string>)
    ensures |parts| >= 1
    decreases |s|
  {
    if |s| < 2 then [s]
    else if s[0] == '\n' && s[1] == '\n' then [""] + Split(s[2..])
    else
      var rest := Split(s[1..]);
      [[s[0]] + rest[0]] + rest[1..]
  }

  /** The complete fragments: every piece but the last. */
  function Fragments(s: string): seq<string>
  {
    var parts := Split(s);
    parts[..|parts| - 1]
  }

  /** The carry-over: `messages.pop() || ''`. */
  function Remainder(s: string): string
  {
    var parts := Split(s);
    parts[|parts| - 1]
  }

  /** `parts.join("\n\n")`, the inverse of Split. */
  function Join(parts: seq<string>): string
    requires |parts| >= 1
  {
    if |parts| == 1 then parts[0] else parts[0] + Separator + Join(parts[1..])
  }

  lemma JoinConsHead(c: char, x: string, rest: seq<string>)
    ensures Join([[c] + x] + rest) == [c] + Join([x] + rest)
  {
    if rest != [] {
      assert ([[c] + x] + rest)[1..] == rest;
      assert ([x] + rest)[1..] == rest;
    }
  }

  lemma {:induction false} SplitJoin(s: string)
    ensures Join(Split(s)) == s
    decreases |s|
  {
    if |s| < 2 {
    } else if s[0] == '\n' && s[1] == '\n' {
      SplitJoin(s[2..]);
      assert ([""] + Split(s[2..]))[1..] == Split(s[2..]);
      assert s == Separator + s[2..];
    } else {
      var rest := Split(s[1..]);
      SplitJoin(s[1..]);
      JoinConsHead(s[0], rest[0], rest[1..]);
      assert [rest[0]] + rest[1..] == rest;
      assert s == [s[0]] + s[1..];
    }
  }

  lemma {:induction false} SplitPartsHaveNoSeparator(s: string)
    ensures forall k :: 0 <= k < |Split(s)| ==> !ContainsSeparator(Split(s)[k])
    decreases |s|
  {
    if |s| < 2 {
      assert !HasSeparatorAt(s, 0);
    } else if s[0] == '\n' && s[1] == '\n' {
      SplitPartsHaveNoSeparator(s[2..]);
      var tail := Split(s[2..]);
      forall k | 0 <= k < |[""] + tail| ensures !ContainsSeparator(([""] + tail)[k]) {
        if k > 0 { assert ([""] + tail)[k] == tail[k - 1]; }
      }
    } else {
      var rest := Split(s[1..]);
      SplitPartsHaveNoSeparator(s[1..]);
      FirstPieceStarts(s[1..]);
      ConsNoSeparator(s[0], rest[0]);
      var parts := [[s[0]] + rest[0]] + rest[1..];
      forall k | 0 <= k < |parts| ensures !ContainsSeparator(parts[k]) {
        if k > 0 { assert parts[k] == rest[k]; }
      }
    }
  }

  /** The first piece starts where the text starts. */
  lemma FirstPieceStarts(s: string)
    requires |s| >= 1
    ensures |Split(s)[0]| > 0 ==> Split(s)[0][0] == s[0]
  {
    SplitJoin(s);
    JoinFirst(Split(s));
  }

  /** A character put in front of separator-free text adds no separator,
      unless both are newlines. */
  lemma ConsNoSeparator(c: char, x: string)
    requires !ContainsSeparator(x)
    requires c != '\n' || x == [] || x[0] != '\n'
    ensures !ContainsSeparator([c] + x)
  {
    var h := [c] + x;
    forall i | 0 <= i < |h| ensures !HasSeparatorAt(h, i) {
      if i > 0 { assert !HasSeparatorAt(x, i - 1); }
    }
  }

  /** The first piece is a prefix of the joined text. */
  lemma {:induction false} JoinFirst(parts: seq<string>)
    requires |parts| >= 1
    ensures |parts[0]| <= |Join(parts)| && Join(parts)[..|parts[0]|] == parts[0]
  {
  }

  /** Appending text to the carry-over never disturbs the fragments already
      cut off: splitting `x + y` cuts the same complete fragments as `x`, and
      the remainder of `x` is re-split together with `y`. */
  lemma {:induction false} SplitAppend(x: string, y: string)
    ensures Split(x + y) == Fragments(x) + Split(Remainder(x) + y)
    decreases |x|
  {
    if |x| < 2 {
    } else if x[0] == '\n' && x[1] == '\n' {
      SplitAppend(x[2..], y);
      SplitAppendSeparatorFirst(x, y);
    } else {
      var rest := Split(x[1..]);
      if |rest| == 1 {
        SplitJoin(x[1..]);
        assert [x[0]] + x[1..] == x;
      } else {
        SplitAppend(x[1..], y);
        SplitAppendOrdinaryFirst(x, y);
      }
    }
  }

  lemma SplitAppendSeparatorFirst(x: string, y: string)
    requires |x| >= 2 && x[0] == '\n' && x[1] == '\n'
    requires Split(x[2..] + y) == Fragments(x[2..]) + Split(Remainder(x[2..]) + y)
    ensures Split(x + y) == Fragments(x) + Split(Remainder(x) + y)
  {
    var tail := Split(x[2..]);
    SplitOnSeparator(x);
    ConsFrontLast("", tail);
    assert Fragments(x) == [""] + Fragments(x[2..]);
    assert Remainder(x) == Remainder(x[2..]);
    SplitOnSeparator(x + y);
    assert (x + y)[2..] == x[2..] + y;
  }

  lemma SplitOnSeparator(s: string)
    requires |s| >= 2 && s[0] == '\n' && s[1] == '\n'
    ensures Split(s) == [""] + Split(s[2..])
  {
  }

  /** The complete fragments and the carry-over of a list with a piece put
      in front. */
  lemma ConsFrontLast(h: string, t: seq<string>)
    requires |t| >= 1
    ensures ([h] + t)[..|t|] == [h] + t[..|t| - 1] && ([h] + t)[|t|] == t[|t| - 1]
  {
  }

  lemma SplitAppendOrdinaryFirst(x: string, y: string)
    requires |x| >= 2 && !(x[0] == '\n' && x[1] == '\n')
    requires |Split(x[1..])| > 1
    requires Split(x[1..] + y) == Fragments(x[1..]) + Split(Remainder(x[1..]) + y)
    ensures Split(x + y) == Fragments(x) + Split(Remainder(x) + y)
  {
    var rest := Split(x[1..]);
    assert Split(x) == [[x[0]] + rest[0]] + rest[1..];
    assert (x + y)[1..] == x[1..] + y;
    var r := Split(x[1..] + y);
    assert Split(x + y) == [[x[0]] + r[0]] + r[1..];
    var tail := Split(rest[|rest| - 1] + y);
    assert r == rest[..|rest| - 1] + tail;
    assert r[0] == rest[0];
    assert r[1..] == rest[1..|rest| - 1] + tail;
    assert Fragments(x) == [[x[0]] + rest[0]] + rest[1..|rest| - 1];
  }

  /** A separator right after a line with no newline cuts exactly there. */
  lemma {:induction false} SplitAfterLine(line: string, z: string)
    requires forall i :: 0 <= i < |line| ==> line[i] != '\n'
    ensures Split(line + Separator + z) == [line] + Split(z)
    decreases |line|
  {
    if line == [] {
      assert line + Separator + z == Separator + z;
      assert (Separator + z)[2..] == z;
    } else {
      SplitAfterLine(line[1..], z);
      assert (line + Separator + z)[1..] == line[1..] + Separator + z;
      assert [line[0]] + line[1..] == line;
    }
  }

  /** After the carry-over is split off, it is exactly the text that follows
      the last separator, and it holds no separator itself. */
  lemma RemainderFollowsLastSeparator(s: string)
    ensures !ContainsSeparator(Remainder(s))
    ensures |Split(s)| == 1 ==> Remainder(s) == s
    ensures |Split(s)| > 1 ==> s == Join(Fragments(s)) + Separator + Remainder(s)
  {
    var parts := Split(s);
    SplitPartsHaveNoSeparator(s);
    assert !ContainsSeparator(parts[|parts| - 1]);
    SplitJoin(s);
    if |parts| > 1 {
      JoinSnoc(parts[..|parts| - 1], parts[|parts| - 1]);
      assert parts[..|parts| - 1] + [parts[|parts| - 1]] == parts;
    }
  }

  lemma {:induction false} JoinSnoc(front: seq<string>, last: string)
    requires |front| >= 1
    ensures Join(front + [last]) == Join(front) + Separator + last
    decreases |front|
  {
    if |front| > 1 {
      JoinSnoc(front[1..], last);
      assert (front + [last])[1..] == front[1..] + [last];
    } else {
      assert (front + [last])[1..] == [last];
    }
  }

  /** What one read contributes: the complete fragments of the text so far,
      then those of the new carry-over followed by the rest of the stream. */
  lemma FragmentsAppend(x: string, y: string)
    ensures Fragments(x + y) == Fragments(x) + Fragments(Remainder(x) + y)
    ensures Remainder(x + y) == Remainder(Remainder(x) + y)
  {
    SplitAppend(x, y);
    var tail := Split(Remainder(x) + y);
    assert Split(x + y) == Fragments(x) + tail;
  }

  /** Text without a separator is a single piece: it is all carry-over. */
  lemma {:induction false} UnseparatedIsRemainder(s: string)
    requires !ContainsSeparator(s)
    ensures Split(s) == [s]
    decreases |s|
  {
    if |s| >= 2 {
      assert !HasSeparatorAt(s, 0);
      assert !ContainsSeparator(s[1..]) by {
        forall i | 0 <= i < |s[1..]| ensures !HasSeparatorAt(s[1..], i) {
          assert !HasSeparatorAt(s, i + 1);
        }
      }
      UnseparatedIsRemainder(s[1..]);
      assert [s[0]] + s[1..] == s;
    }
  }
}
