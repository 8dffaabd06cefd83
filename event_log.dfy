/** The bounded event logs of the realtime components
    (src/examples/SupabaseRealTimeExample.tsx `addEvent`,
    src/components/SupabaseRealTimeDemo.tsx): a new event goes first and the
    log keeps only the ten most recent. */
module EventLog {

  const Capacity: nat := 10

  function Min(a: nat, b: nat): nat
  {
    if a <= b then a else b
  }

  /** `[event, ...log].slice(0, 10)`. */
  function Push<E>(log: seq<E>, event: E): (r: seq<E>)
    ensures 0 < |r| <= Capacity && |r| == Min(|log| + 1, Capacity)
    ensures r[0] == event
    ensures r[1..] == log[..|r| - 1]
  {
    ([event] + log)[..Min(|log| + 1, Capacity)]
  }

  /** The log after pushing `events` one by one, oldest first. */
  function PushAll<E>(log: seq<E>, events: seq<E>): seq<E>
  {
    if events == [] then log
    else Push(PushAll(log, events[..|events| - 1]), events[|events| - 1])
  }

  function Reversed<E>(s: seq<E>): (r: seq<E>)
    ensures |r| == |s|
  {
    if s == [] then [] else Reversed(s[1..]) + [s[0]]
  }

  lemma {:induction false} ReversedSnoc<E>(s: seq<E>, x: E)
    ensures Reversed(s + [x]) == [x] + Reversed(s)
    decreases |s|
  {
    if s == [] {
      assert s + [x] == [x];
    } else {
      assert (s + [x])[1..] == s[1..] + [x];
      ReversedSnoc(s[1..], x);
    }
  }

  /** A log is never longer than ten, whatever was pushed onto it. */
  lemma {:induction false} PushAllBounded<E>(log: seq<E>, events: seq<E>)
    requires |log| <= Capacity
    ensures |PushAll(log, events)| <= Capacity
    decreases |events|
  {
    if events != [] {
      PushAllBounded(log, events[..|events| - 1]);
    }
  }

  /** The log holds the most recent events, newest first, followed by what
      was already there, cut at ten: no event is lost before ten newer ones
      arrive, and none is duplicated or reordered. */
  lemma {:induction false} PushAllNewestFirst<E>(log: seq<E>, events: seq<E>)
    requires |log| <= Capacity
    ensures PushAll(log, events) == (Reversed(events) + log)[..Min(|events| + |log|, Capacity)]
    decreases |events|
  {
    if events == [] {
      assert Reversed(events) + log == log;
    } else {
      var front, x := events[..|events| - 1], events[|events| - 1];
      assert front + [x] == events;
      PushAllNewestFirst(log, front);
      ReversedSnoc(front, x);
      var before := Reversed(front) + log;
      var m := Min(|front| + |log|, Capacity);
      assert PushAll(log, events) == Push(before[..m], x);
      assert Reversed(events) + log == [x] + before;
      var k := Min(m + 1, Capacity);
      assert k == Min(|events| + |log|, Capacity);
      assert Push(before[..m], x) == ([x] + before)[..k] by {
        assert ([x] + before[..m])[..k] == ([x] + before)[..k];
      }
    }
  }

  /** Starting from an empty log, the log is the last ten events in reverse
      arrival order. */
  lemma LatestTen<E>(events: seq<E>)
    ensures PushAll([], events) == Reversed(events)[..Min(|events|, Capacity)]
  {
    PushAllNewestFirst([], events);
    assert Reversed(events) + [] == Reversed(events);
  }
}
