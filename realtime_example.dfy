/** The realtime thread browser (src/examples/SupabaseRealTimeExample.tsx):
    a list of `chat_threads` rows kept in step with database change events,
    the messages of the selected thread, a bounded event log, and the two
    channels it holds: one on all threads, one on the selected thread.

    Rows are JavaScript objects, modelled as maps from column names to
    values, so that the `{...thread, ...payload.new}` merge is a map union.
    Database reads and writes are inputs and outputs of the methods. */
module RealtimeExample {
  import opened Wrappers
  import opened JsText
  import opened ChatTypes
  import EventLog

  /** A column value: a string, an array of messages, or null. */
  datatype Value = Text(s: string) | List(messages: seq<Message>) | Null

  type Row = map<string, Value>

  /** A `postgres_changes` payload: its `eventType`, and its `new` and `old`
      rows (`None` where the payload has none). */
  datatype Change = Change(eventType: string, newRow: Option<Row>, oldRow: Option<Row>)

  /** An entry of the event log; its timestamp is not modelled. */
  datatype Event = Event(kind: string, eventType: string, threadId: Option<Value>)

  /** A database update of one thread's `messages` column. */
  datatype Write = Write(threadId: string, messages: seq<Message>)

  /** The state the change handlers read and write. */
  datatype Screen = Screen(threads: seq<Row>, messages: seq<Message>, selected: Option<string>, events: seq<Event>)

  /** The channels the realtime client can have open. */
  datatype Chan = AllThreads | ThreadOf(id: string)

  const AllThreadsKind: string := "thread_change"
  const ThreadKind: string := "specific_thread_change"
  const AutoReplyPrefix: string := "This is an automated response to: \""

  /** `row.name`, with `None` for a missing property (`undefined`). */
  function Field(row: Row, name: string): Option<Value>
  {
    if name in row then Some(row[name]) else None
  }

  function IdOf(row: Row): Option<Value>
  {
    Field(row, "id")
  }

  /** `row?.name` on an optional row. */
  function FieldOf(row: Option<Row>, name: string): Option<Value>
  {
    if row.Some? then Field(row.value, name) else None
  }

  predicate Truthy(v: Option<Value>)
  {
    v.Some? && !v.value.Null? && (v.value.Text? ==> v.value.s != "")
  }

  /** `a || b`. */
  function Or(a: Option<Value>, b: Option<Value>): (r: Option<Value>)
    ensures Truthy(a) ==> r == a
    ensures !Truthy(a) ==> r == b
  {
    if Truthy(a) then a else b
  }

  /** `a === b` between two column values: strings by content, null equals
      null, undefined equals undefined; arrays are distinct objects. */
  predicate SameValue(a: Option<Value>, b: Option<Value>)
  {
    match (a, b)
    case (None, None) => true
    case (Some(Text(x)), Some(Text(y))) => x == y
    case (Some(Null), Some(Null)) => true
    case _ => false
  }

  /** `id === selectedThreadId`, where the selection is a string or null. */
  predicate IsSelected(id: Option<Value>, selected: Option<string>)
  {
    match id
    case Some(Text(x)) => selected == Some(x)
    case Some(Null) => selected.None?
    case _ => false
  }

  /** The messages of a `messages` value that is an array. */
  function ListOf(v: Option<Value>): Option<seq<Message>>
  {
    if v.Some? && v.value.List? then Some(v.value.messages) else None
  }

  // ---------------------------------------------------------------------
  // List reconciliation

  /** `prev.map(thread => thread.id === row.id ? {...thread, ...row} : thread)`. */
  function Merged(threads: seq<Row>, row: Row): (r: seq<Row>)
    ensures |r| == |threads|
    ensures forall i :: 0 <= i < |r| && !SameValue(IdOf(threads[i]), IdOf(row)) ==> r[i] == threads[i]
    ensures forall i, k :: 0 <= i < |r| && SameValue(IdOf(threads[i]), IdOf(row)) && k in row ==> k in r[i] && r[i][k] == row[k]
    ensures forall i, k :: 0 <= i < |r| && SameValue(IdOf(threads[i]), IdOf(row)) && k in threads[i] && k !in row ==>
      k in r[i] && r[i][k] == threads[i][k]
    ensures forall i :: 0 <= i < |r| ==> r[i].Keys == threads[i].Keys || SameValue(IdOf(threads[i]), IdOf(row))
  {
    seq(|threads|, i requires 0 <= i < |threads| =>
      if SameValue(IdOf(threads[i]), IdOf(row)) then threads[i] + row else threads[i])
  }

  /** `prev.filter(thread => thread.id !== id)`. */
  function Removed(threads: seq<Row>, id: Option<Value>): (r: seq<Row>)
    ensures |r| <= |threads|
    ensures forall t :: t in r <==> t in threads && !SameValue(IdOf(t), id)
  {
    if threads == [] then []
    else
      var rest := Removed(threads[1..], id);
      assert threads == [threads[0]] + threads[1..];
      if SameValue(IdOf(threads[0]), id) then rest else [threads[0]] + rest
  }

  /** Merging keeps every thread's id, and so the set of ids in the list. */
  lemma MergedKeepsIds(threads: seq<Row>, row: Row)
    ensures forall i :: 0 <= i < |threads| ==> IdOf(Merged(threads, row)[i]) == IdOf(threads[i])
  {
    var r := Merged(threads, row);
    forall i | 0 <= i < |threads|
      ensures IdOf(r[i]) == IdOf(threads[i])
    {
      if SameValue(IdOf(threads[i]), IdOf(row)) {
        if "id" in row {
          assert r[i]["id"] == row["id"];
        } else {
          assert IdOf(threads[i]).None?;
          assert "id" !in r[i];
        }
      }
    }
  }

  /** Applying the same UPDATE twice changes nothing the first did not. */
  lemma MergedIdempotent(threads: seq<Row>, row: Row)
    ensures Merged(Merged(threads, row), row) == Merged(threads, row)
  {
    var once := Merged(threads, row);
    MergedKeepsIds(threads, row);
    forall i | 0 <= i < |threads|
      ensures Merged(once, row)[i] == once[i]
    {
      if SameValue(IdOf(once[i]), IdOf(row)) {
        assert once[i] + row == once[i];
      }
    }
  }

  /** The filter keeps the order of what it keeps: filtering a list is
      filtering its two halves. */
  lemma {:induction false} RemovedAppend(a: seq<Row>, b: seq<Row>, id: Option<Value>)
    ensures Removed(a + b, id) == Removed(a, id) + Removed(b, id)
    decreases |a|
  {
    if a == [] {
      assert a + b == b;
    } else {
      assert (a + b)[0] == a[0] && (a + b)[1..] == a[1..] + b;
      RemovedAppend(a[1..], b, id);
    }
  }

  /** Removing the same id twice removes nothing more. */
  lemma {:induction false} RemovedIdempotent(threads: seq<Row>, id: Option<Value>)
    ensures Removed(Removed(threads, id), id) == Removed(threads, id)
    decreases |threads|
  {
    if threads != [] {
      RemovedIdempotent(threads[1..], id);
    }
  }

  // ---------------------------------------------------------------------
  // The change handlers

  /** The handler of the all-threads channel, with `seen` the selection it
      compares against: log the change; INSERT prepends the new row; UPDATE
      merges it into the rows with its id and, for the selected thread,
      shows its messages; DELETE drops the rows with the old row's id and
      clears a selection of that thread. */
  function HandleAllThreads(s: Screen, change: Change, seen: Option<string>): (r: Screen)
    ensures r.events == EventLog.Push(s.events,
      Event(AllThreadsKind, change.eventType, Or(FieldOf(change.newRow, "id"), FieldOf(change.oldRow, "id"))))
    ensures change.eventType == "INSERT" && change.newRow.Some? ==> r.threads == [change.newRow.value] + s.threads
    ensures change.eventType !in {"INSERT", "UPDATE", "DELETE"} ==> r == s.(events := r.events)
  {
    var event := Event(AllThreadsKind, change.eventType, Or(FieldOf(change.newRow, "id"), FieldOf(change.oldRow, "id")));
    var logged := s.(events := EventLog.Push(s.events, event));
    if change.eventType == "INSERT" && change.newRow.Some? then logged.(threads := [change.newRow.value] + s.threads)
    else if change.eventType == "UPDATE" && change.newRow.Some? then Updated(logged, change.newRow.value, seen)
    else if change.eventType == "DELETE" && change.oldRow.Some? then Deleted(logged, IdOf(change.oldRow.value), seen)
    else logged
  }

  /** An UPDATE's row merged into the list, and its messages shown when it
      is the thread `seen` as selected. */
  function Updated(s: Screen, row: Row, seen: Option<string>): (r: Screen)
    ensures r.threads == Merged(s.threads, row) && r.selected == s.selected && r.events == s.events
    ensures IsSelected(IdOf(row), seen) && ListOf(Field(row, "messages")).Some? ==>
      r.messages == ListOf(Field(row, "messages")).value
    ensures !(IsSelected(IdOf(row), seen) && ListOf(Field(row, "messages")).Some?) ==> r.messages == s.messages
  {
    var shown := ListOf(Field(row, "messages"));
    var merged := s.(threads := Merged(s.threads, row));
    if IsSelected(IdOf(row), seen) && shown.Some? then merged.(messages := shown.value) else merged
  }

  /** A DELETE: the rows with the deleted id dropped, and the selection
      cleared when it is the thread `seen` as selected. */
  function Deleted(s: Screen, id: Option<Value>, seen: Option<string>): (r: Screen)
    ensures r.threads == Removed(s.threads, id) && r.messages == s.messages && r.events == s.events
    ensures r.selected == (if IsSelected(id, seen) then None else s.selected)
  {
    var kept := s.(threads := Removed(s.threads, id));
    if IsSelected(id, seen) then kept.(selected := None) else kept
  }

  /** The selection the all-threads handler sees as written: the handler is
      created once, on mount, when nothing is selected. */
  const MountSelection: Option<string> := None

  /** The all-threads handler as written, closing over the mount-time
      selection. */
  function StaleHandleAllThreads(s: Screen, change: Change): Screen
  {
    HandleAllThreads(s, change, MountSelection)
  }

  /** The handler of the selected thread's channel: log the change; UPDATE
      shows the new row's messages; DELETE clears the selection. */
  function HandleThread(s: Screen, threadId: string, change: Change): (r: Screen)
    ensures r.threads == s.threads
    ensures r.events == EventLog.Push(s.events, Event(ThreadKind, change.eventType, Some(Text(threadId))))
    ensures change.eventType == "DELETE" ==> r.selected.None?
    ensures change.eventType != "DELETE" ==> r.selected == s.selected
    ensures r.messages != s.messages ==> change.eventType == "UPDATE" && Some(r.messages) == ListOf(FieldOf(change.newRow, "messages"))
  {
    var logged := s.(events := EventLog.Push(s.events, Event(ThreadKind, change.eventType, Some(Text(threadId)))));
    if change.eventType == "UPDATE" then
      var shown := ListOf(FieldOf(change.newRow, "messages"));
      if shown.Some? then logged.(messages := shown.value) else logged
    else if change.eventType == "DELETE" then logged.(selected := None)
    else logged
  }

  /** The selection names a thread in the list, or nothing is selected. */
  predicate SelectionListed(s: Screen)
  {
    s.selected.Some? ==> exists t :: t in s.threads && IdOf(t) == Some(Text(s.selected.value))
  }

  /** Reacting to changes against the current selection keeps the
      selection pointing into the list. */
  lemma HandlerKeepsSelectionListed(s: Screen, change: Change)
    requires SelectionListed(s)
    ensures SelectionListed(HandleAllThreads(s, change, s.selected))
  {
    var r := HandleAllThreads(s, change, s.selected);
    if r.selected.Some? {
      var x := r.selected.value;
      assert s.selected == Some(x);
      var t :| t in s.threads && IdOf(t) == Some(Text(x));
      if change.eventType == "INSERT" && change.newRow.Some? {
        assert t in r.threads;
      } else if change.eventType == "UPDATE" && change.newRow.Some? {
        var i :| 0 <= i < |s.threads| && s.threads[i] == t;
        MergedKeepsIds(s.threads, change.newRow.value);
        assert r.threads[i] in r.threads;
      } else if change.eventType == "DELETE" && change.oldRow.Some? {
        assert !SameValue(IdOf(t), IdOf(change.oldRow.value));
        assert t in r.threads;
      }
    }
  }

  /** As written, deleting the selected thread leaves it selected: the
      handler compares the deleted id with the mount-time selection. */
  lemma StaleSelectionOutlivesDelete()
    ensures var s := Screen([map["id" := Text("t")]], [], Some("t"), []);
      var change := Change("DELETE", Some(map[]), Some(map["id" := Text("t")]));
      SelectionListed(s) && !SelectionListed(StaleHandleAllThreads(s, change))
  {
    var row: Row := map["id" := Text("t")];
    var s := Screen([row], [], Some("t"), []);
    var change := Change("DELETE", Some(map[]), Some(row));
    assert row in s.threads;
    var r := StaleHandleAllThreads(s, change);
    assert r.threads == [];
    assert r.selected == Some("t");
  }

  /** Against the current selection, an UPDATE of the selected thread that
      carries its messages shows them. */
  lemma SelectedUpdateShown(s: Screen, row: Row, ms: seq<Message>)
    requires s.selected.Some? && IdOf(row) == Some(Text(s.selected.value))
    requires Field(row, "messages") == Some(List(ms))
    ensures HandleAllThreads(s, Change("UPDATE", Some(row), None), s.selected).messages == ms
  {
  }

  /** As written, the all-threads handler never shows the messages of an
      UPDATE whose row has a string id: the mount-time selection is null.
      The selected thread's messages reach the screen only through the
      per-thread handler. */
  lemma StaleUpdateNotShown(s: Screen, row: Row, oldRow: Option<Row>, x: string)
    requires IdOf(row) == Some(Text(x))
    ensures StaleHandleAllThreads(s, Change("UPDATE", Some(row), oldRow)).messages == s.messages
    ensures StaleHandleAllThreads(s, Change("UPDATE", Some(row), oldRow)).threads == Merged(s.threads, row)
  {
  }

  /** An UPDATE on the selected thread's own channel that carries a
      `messages` array shows exactly those messages and keeps the
      selection and the list. */
  lemma ThreadUpdateShown(s: Screen, threadId: string, row: Row, oldRow: Option<Row>, ms: seq<Message>)
    requires Field(row, "messages") == Some(List(ms))
    ensures var r := HandleThread(s, threadId, Change("UPDATE", Some(row), oldRow));
      r.messages == ms && r.selected == s.selected && r.threads == s.threads
  {
  }

  /** As written, a DELETE of the selected thread arriving on the
      all-threads channel keeps the selection; arriving on the thread's own
      channel, it clears it. */
  lemma StaleDeleteKeepsSelection(s: Screen, oldRow: Row, newRow: Option<Row>, x: string)
    requires IdOf(oldRow) == Some(Text(x))
    ensures StaleHandleAllThreads(s, Change("DELETE", newRow, Some(oldRow))).selected == s.selected
    ensures HandleThread(s, x, Change("DELETE", newRow, Some(oldRow))).selected.None?
  {
  }

  /** The per-thread handler never leaves the selection dangling. */
  lemma ThreadHandlerKeepsSelectionListed(s: Screen, threadId: string, change: Change)
    requires SelectionListed(s)
    ensures SelectionListed(HandleThread(s, threadId, change))
  {
    var r := HandleThread(s, threadId, change);
    if r.selected.Some? {
      var t :| t in s.threads && IdOf(t) == Some(Text(r.selected.value));
      assert t in r.threads;
    }
  }

  // ---------------------------------------------------------------------
  // Sending a message

  /** The writes `sendMessage` makes: none without a selection or with blank
      text; else the messages with the trimmed text added as a user
      message, and, once that write succeeded, the same list with the
      automated reply added. */
  function SendWrites(messages: seq<Message>, selected: Option<string>, input: string, written: bool): (r: seq<Write>)
    ensures r == [] <==> selected.None? || selected.value == "" || Trim(input) == ""
    ensures r != [] ==> |r| == (if written then 2 else 1) && r[0].threadId == selected.value
    ensures r != [] ==> r[0].messages == messages + [Message(User, Trim(input))] && Trim(input) != ""
    ensures |r| == 2 ==>
      (r[1].threadId == r[0].threadId
       && r[1].messages == r[0].messages + [Message(Assistant, AutoReplyPrefix + Trim(input) + "\"")])
  {
    if selected.None? || selected.value == "" || Trim(input) == "" then []
    else
      var text := Trim(input);
      var updated := messages + [Message(User, text)];
      if written then [Write(selected.value, updated), Write(selected.value, updated + [Message(Assistant, AutoReplyPrefix + text + "\"")])]
      else [Write(selected.value, updated)]
  }

  /** When the database echoes a write back on the thread's channel, the
      thread shows exactly the written list: the old messages and one new
      user message. */
  lemma SentMessageEchoed(s: Screen, input: string, written: bool)
    requires SendWrites(s.messages, s.selected, input, written) != []
    ensures var w := SendWrites(s.messages, s.selected, input, written)[0];
      var echo := Change("UPDATE", Some(map["id" := Text(w.threadId), "messages" := List(w.messages)]), None);
      HandleThread(s, w.threadId, echo).messages == s.messages + [Message(User, Trim(input))]
  {
    var w := SendWrites(s.messages, s.selected, input, written)[0];
    var row: Row := map["id" := Text(w.threadId), "messages" := List(w.messages)];
    assert Field(row, "messages") == Some(List(w.messages));
  }

  // ---------------------------------------------------------------------
  // The component

  class Example {
    var threads: seq<Row>
    var messages: seq<Message>
    var selected: Option<string>
    var events: seq<Event>
    /** `newMessage`, the text box. */
    var input: string
    /** `allThreadsChannelRef` and `threadChannelRef`: whether the first is
        held, and the thread of the second. */
    var allChannel: bool
    var threadChannel: Option<string>
    /** The channels the realtime client has open. */
    var open: multiset<Chan>

    /** Every open channel is held by a ref, and the log is bounded. */
    predicate Valid()
      reads this`allChannel, this`threadChannel, this`open, this`events
    {
      open == (if allChannel then multiset{AllThreads} else multiset{})
        + (if threadChannel.Some? then multiset{ThreadOf(threadChannel.value)} else multiset{})
      && |events| <= EventLog.Capacity
    }

    function View(): Screen
      reads this`threads, this`messages, this`selected, this`events
    {
      Screen(threads, messages, selected, events)
    }

    constructor ()
      ensures Valid() && View() == Screen([], [], None, []) && input == ""
      ensures !allChannel && threadChannel.None?
    {
      threads := [];
      messages := [];
      selected := None;
      events := [];
      input := "";
      allChannel := false;
      threadChannel := None;
      open := multiset{};
    }

    /** The mount effect: the thread list is loaded (`data || []`; an error
        leaves it as it was) and the all-threads channel is opened, unless
        creating it threw. */
    method Mount(fetched: Result<Option<seq<Row>>, string>, subscribed: bool)
      requires Valid() && !allChannel
      modifies this`threads, this`allChannel, this`open
      ensures Valid() && allChannel == subscribed && threadChannel == old(threadChannel)
      ensures threads == (if fetched.Err? then old(threads) else if fetched.value.Some? then fetched.value.value else [])
    {
      if fetched.Ok? {
        threads := if fetched.value.Some? then fetched.value.value else [];
      }
      if subscribed {
        open := open + multiset{AllThreads};
        allChannel := true;
      }
    }

    /** `createThread`: the first row the insert returns becomes the
        selection (`created`); an error result, a throw or an empty result
        leaves it. The row reaches the list only as a change event, and the
        selection effect then runs as `SelectionEffect`. */
    method CreateThread(created: Option<string>)
      requires Valid()
      modifies this`selected
      ensures Valid()
      ensures selected == (if created.Some? then created else old(selected))
    {
      if created.Some? {
        selected := created;
      }
    }

    /** The selection effect, when the selection becomes `selection`: the
        previous thread channel is closed and released first; a selected
        thread's messages are loaded (`data?.messages || []`; an error
        leaves them) and its channel opened, unless that threw; no selection
        clears the messages. */
    method SelectionEffect(selection: Option<string>, fetched: Result<Option<seq<Message>>, string>, subscribed: bool)
      requires Valid()
      modifies this`selected, this`messages, this`threadChannel, this`open
      ensures Valid() && selected == selection && allChannel == old(allChannel)
      ensures threadChannel == (if selection.Some? && selection.value != "" && subscribed then selection else None)
      ensures !(selection.Some? && selection.value != "") ==> messages == []
      ensures selection.Some? && selection.value != "" ==>
        messages == (if fetched.Err? then old(messages) else if fetched.value.Some? then fetched.value.value else [])
    {
      ReleaseThreadChannel();
      selected := selection;
      if selection.Some? && selection.value != "" {
        OpenThread(selection.value, fetched, subscribed);
      } else {
        messages := [];
      }
    }

    /** Loads the messages of thread `id` and opens its channel. */
    method OpenThread(id: string, fetched: Result<Option<seq<Message>>, string>, subscribed: bool)
      requires Valid() && threadChannel.None?
      modifies this`messages, this`threadChannel, this`open
      ensures Valid() && threadChannel == (if subscribed then Some(id) else None)
      ensures messages == (if fetched.Err? then old(messages) else if fetched.value.Some? then fetched.value.value else [])
    {
      if fetched.Ok? {
        messages := if fetched.value.Some? then fetched.value.value else [];
      }
      if subscribed {
        open := open + multiset{ThreadOf(id)};
        threadChannel := Some(id);
      }
    }

    /** Closes the thread channel, if one is held, and releases its ref. */
    method ReleaseThreadChannel()
      requires Valid()
      modifies this`threadChannel, this`open
      ensures Valid() && threadChannel.None?
      ensures open == (if allChannel then multiset{AllThreads} else multiset{})
    {
      if threadChannel.Some? {
        open := open - multiset{ThreadOf(threadChannel.value)};
        threadChannel := None;
      }
    }

    /** A change on the all-threads channel. The handler is the one created
        on mount, so it compares ids against the mount-time selection. */
    method OnAllThreadsChange(change: Change)
      requires Valid()
      modifies this`threads, this`messages, this`selected, this`events
      ensures Valid() && View() == StaleHandleAllThreads(old(View()), change)
    {
      var event := Event(AllThreadsKind, change.eventType, Or(FieldOf(change.newRow, "id"), FieldOf(change.oldRow, "id")));
      events := EventLog.Push(events, event);
      if change.eventType == "INSERT" && change.newRow.Some? {
        threads := [change.newRow.value] + threads;
      } else if change.eventType == "UPDATE" && change.newRow.Some? {
        UpdateRow(change.newRow.value);
      } else if change.eventType == "DELETE" && change.oldRow.Some? {
        DeleteRows(IdOf(change.oldRow.value));
      }
    }

    method UpdateRow(row: Row)
      modifies this`threads, this`messages
      ensures View() == Updated(old(View()), row, MountSelection)
    {
      threads := Merged(threads, row);
      var shown := ListOf(Field(row, "messages"));
      if IsSelected(IdOf(row), MountSelection) && shown.Some? {
        messages := shown.value;
      }
    }

    method DeleteRows(id: Option<Value>)
      modifies this`threads, this`selected
      ensures View() == Deleted(old(View()), id, MountSelection)
    {
      threads := Removed(threads, id);
      if IsSelected(id, MountSelection) {
        selected := None;
      }
    }

    /** A change on the channel of thread `threadId`. */
    method OnThreadChange(threadId: string, change: Change)
      requires Valid()
      modifies this`messages, this`selected, this`events
      ensures Valid() && View() == HandleThread(old(View()), threadId, change)
    {
      events := EventLog.Push(events, Event(ThreadKind, change.eventType, Some(Text(threadId))));
      if change.eventType == "UPDATE" {
        var shown := ListOf(FieldOf(change.newRow, "messages"));
        if shown.Some? {
          messages := shown.value;
        }
      } else if change.eventType == "DELETE" {
        selected := None;
      }
    }

    /** `sendMessage`, given whether the first write succeeded: the writes
        it makes; the text box is cleared once the first write succeeded.
        The shown messages change only when the write comes back as a
        change event. */
    method SendMessage(written: bool) returns (writes: seq<Write>)
      modifies this`input
      ensures writes == SendWrites(messages, selected, old(input), written)
      ensures input == (if writes != [] && written then "" else old(input))
    {
      if selected.None? || selected.value == "" || Trim(input) == "" {
        return [];
      }
      var text := Trim(input);
      var updated := messages + [Message(User, text)];
      writes := [Write(selected.value, updated)];
      if written {
        input := "";
        writes := writes + [Write(selected.value, updated + [Message(Assistant, AutoReplyPrefix + text + "\"")])];
      }
    }

    /** `deleteThread`, given whether the database delete succeeded: a
        successful delete of the selected thread clears the selection; the
        list itself changes only when the delete comes back as a change
        event. */
    method DeleteThread(threadId: string, deleted: bool)
      requires Valid()
      modifies this`selected
      ensures Valid()
      ensures selected == (if deleted && old(selected) == Some(threadId) then None else old(selected))
    {
      if deleted && selected == Some(threadId) {
        selected := None;
      }
    }

    /** `cleanupSubscriptions`: every held channel is closed and both refs
        released. */
    method CleanupSubscriptions()
      requires Valid()
      modifies this`allChannel, this`threadChannel, this`open
      ensures Valid() && !allChannel && threadChannel.None? && open == multiset{}
    {
      if allChannel {
        open := open - multiset{AllThreads};
        allChannel := false;
      }
      ReleaseThreadChannel();
    }
  }

  /** At most one channel per kind is open, and the open ones are the held
      ones. This follows from `Valid`, which every method of `Example`
      keeps; it is stated apart because `CleanupSubscriptions` releases
      only the channels held in the two refs, which leaves nothing open
      only if no other channel is. */
  lemma ChannelsHeld(e: Example)
    requires e.Valid()
    ensures e.open[AllThreads] <= 1
    ensures forall id :: e.open[ThreadOf(id)] <= 1
    ensures forall id :: e.open[ThreadOf(id)] == 1 ==> e.threadChannel == Some(id)
  {
  }
}
