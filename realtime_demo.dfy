/** The realtime demo panel (src/components/SupabaseRealTimeDemo.tsx): one
    channel on the `chat_threads` table, the subscription status it
    reports, an error message, and a log of the ten most recent change
    events. Event ids and timestamps (randomness and the clock) and the
    payload kept with each event are not modelled. */
module RealtimeDemo {
  import opened Wrappers
  import EventLog

  datatype DemoEvent = DemoEvent(eventType: string, table: string)

  const Table: string := "chat_threads"
  const Disconnected: string := "disconnected"
  const Connecting: string := "connecting"
  const SetupFailed: string := "error"
  const ChannelError: string := "CHANNEL_ERROR"
  const SubscribeFailed: string := "Failed to subscribe to real-time updates"

  /** The status and error after the subscription callback reports
      `reported`: the status is stored as reported, and a channel error
      sets the error message; any other status leaves the error. */
  function Reported(error: Option<string>, reported: string): (r: (string, Option<string>))
    ensures r.0 == reported
    ensures reported == ChannelError ==> r.1 == Some(SubscribeFailed)
    ensures reported != ChannelError ==> r.1 == error
  {
    (reported, if reported == ChannelError then Some(SubscribeFailed) else error)
  }

  /** What the test insert's database call comes back with: success, an
      error result, or a thrown exception, each with its message. */
  datatype InsertOutcome = Inserted | Rejected(message: string) | Threw(message: string)

  const InsertErrorPrefix: string := "Insert error: "
  const InsertExceptionPrefix: string := "Insert exception: "

  /** The error shown after `testInsert`: a success leaves it; otherwise the
      message follows a prefix that tells an error result from a throw. */
  function InsertError(before: Option<string>, outcome: InsertOutcome): (r: Option<string>)
    ensures outcome.Inserted? ==> r == before
    ensures !outcome.Inserted? ==> r.Some? && |r.value| >= |InsertErrorPrefix|
    ensures !outcome.Inserted? ==>
      (r.value[..|InsertErrorPrefix|] == InsertErrorPrefix <==> outcome.Rejected?)
    ensures outcome.Rejected? ==> r.value[|InsertErrorPrefix|..] == outcome.message
    ensures outcome.Threw? ==>
      |r.value| >= |InsertExceptionPrefix| && r.value[|InsertExceptionPrefix|..] == outcome.message
  {
    match outcome
    case Inserted => before
    case Rejected(message) => Some(InsertErrorPrefix + message)
    case Threw(message) =>
      var shown := InsertExceptionPrefix + message;
      assert shown[8] != InsertErrorPrefix[8];
      Some(shown)
  }

  class Demo {
    var events: seq<DemoEvent>
    var status: string
    /** `null` is `None`. */
    var error: Option<string>
    /** Whether `channelRef` holds a channel. */
    var held: bool
    /** How many of this panel's channels are open. */
    var open: nat

    /** The held channel is the only open one, and the log is bounded. */
    predicate Valid()
      reads this`held, this`open, this`events
    {
      open == (if held then 1 else 0) && |events| <= EventLog.Capacity
    }

    constructor ()
      ensures Valid() && events == [] && status == Disconnected && error.None? && !held
    {
      events := [];
      status := Disconnected;
      error := None;
      held := false;
      open := 0;
    }

    /** `setupRealTimeSubscription`: the status becomes `connecting` and a
        channel is opened and held; when creating it throws `message`, the
        status becomes `error` and the message is recorded instead. */
    method Setup(throws: bool, message: string)
      requires Valid() && !held
      modifies this`status, this`error, this`held, this`open
      ensures Valid() && held == !throws
      ensures !throws ==> status == Connecting && error == old(error)
      ensures throws ==> status == SetupFailed && error == Some(message)
    {
      status := Connecting;
      if throws {
        status := SetupFailed;
        error := Some(message);
      } else {
        open := open + 1;
        held := true;
      }
    }

    /** `testInsert`: the row itself reaches the panel only as a change
        event; the call's own effect is the error it may show. */
    method TestInsert(outcome: InsertOutcome)
      modifies this`error
      ensures error == InsertError(old(error), outcome)
    {
      match outcome
      case Inserted =>
      case Rejected(message) =>
        error := Some(InsertErrorPrefix + message);
      case Threw(message) =>
        error := Some(InsertExceptionPrefix + message);
    }

    /** The channel's change handler: one event, newest first. */
    method OnPayload(eventType: string)
      requires Valid()
      modifies this`events
      ensures Valid() && events == EventLog.Push(old(events), DemoEvent(eventType, Table))
    {
      events := EventLog.Push(events, DemoEvent(eventType, Table));
    }

    /** The channel's status callback. */
    method OnStatus(reported: string)
      modifies this`status, this`error
      ensures (status, error) == Reported(old(error), reported)
    {
      status := reported;
      if reported == ChannelError {
        error := Some(SubscribeFailed);
      }
    }

    /** Closes the held channel, if any, and releases the ref. */
    method Release()
      requires Valid()
      modifies this`held, this`open
      ensures Valid() && !held && open == 0
    {
      if held {
        open := open - 1;
        held := false;
      }
    }

    /** `reconnect`: the old channel is closed and released before a new
        one is set up. */
    method Reconnect(throws: bool, message: string)
      requires Valid()
      modifies this`status, this`error, this`held, this`open
      ensures Valid() && held == !throws && open <= 1
      ensures !throws ==> status == Connecting && error == old(error)
      ensures throws ==> status == SetupFailed && error == Some(message)
    {
      Release();
      Setup(throws, message);
    }

    /** The mount effect's cleanup. */
    method Unmount()
      requires Valid()
      modifies this`held, this`open
      ensures Valid() && !held && open == 0
    {
      Release();
    }
  }

  /** Whatever sequence of payloads arrives, the panel shows the most recent
      ten, newest first, each tagged with its event type and the table. */
  lemma DemoLogShowsLatest(eventTypes: seq<string>)
    ensures var log := EventLog.PushAll([], Tagged(eventTypes));
      |log| <= EventLog.Capacity
      && log == EventLog.Reversed(Tagged(eventTypes))[..EventLog.Min(|eventTypes|, EventLog.Capacity)]
      && (eventTypes != [] ==> log[0] == DemoEvent(eventTypes[|eventTypes| - 1], Table))
  {
    EventLog.LatestTen(Tagged(eventTypes));
    if eventTypes != [] {
      var tagged := Tagged(eventTypes);
      var front := tagged[..|tagged| - 1];
      assert front + [tagged[|tagged| - 1]] == tagged;
      EventLog.ReversedSnoc(front, tagged[|tagged| - 1]);
    }
  }

  /** The events the handler builds from a run of payload types. */
  function Tagged(eventTypes: seq<string>): (r: seq<DemoEvent>)
    ensures |r| == |eventTypes|
    ensures forall i :: 0 <= i < |r| ==> r[i] == DemoEvent(eventTypes[i], Table)
  {
    seq(|eventTypes|, i requires 0 <= i < |eventTypes| => DemoEvent(eventTypes[i], Table))
  }
}
