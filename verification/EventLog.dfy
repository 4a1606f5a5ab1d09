/** The append-only event log of a task and what it says about the task row. */
module EventLog {
  import opened TaskTypes

  function Emit(log: Log, body: EventBody): Log {
    var n := log.sequence + 1;
    Log(n, log.events + [Event(n, body)],
        if body.MessageSaved? then log.messages + [Message(body.message, n, body.author)]
        else log.messages)
  }

  /** The message rows that a log's message_saved events announce. */
  function MessagesOf(events: seq<Event>): seq<Message> {
    if events == [] then [] else
      var e := events[|events| - 1];
      MessagesOf(events[..|events| - 1]) +
        (if e.body.MessageSaved? then [Message(e.body.message, e.sequence, e.body.author)] else [])
  }

  datatype Face = Face(status: Status, reason: Option<Reason>)

  /** One event's effect on what a reader of the log believes. Deleting a task
      keeps the reason it ended with. */
  function ReplayStep(f: Face, body: EventBody): Face {
    match body
    case StatusChanged(Deleted, _) => f.(status := Deleted)
    case StatusChanged(status, reason) => Face(status, reason)
    case _ => f
  }

  function Replay(events: seq<Event>): Face {
    if events == [] then Face(Uploading, None)
    else ReplayStep(Replay(events[..|events| - 1]), events[|events| - 1].body)
  }

  predicate GapFree(log: Log) {
    && |log.events| <= log.sequence
    && forall i | 0 <= i < |log.events| ::
         log.events[i].sequence == log.sequence - |log.events| + i + 1
  }

  /** No terminal cleanup has removed events yet. */
  predicate Whole(log: Log) {
    |log.events| == log.sequence
  }

  predicate LogOk(log: Log, face: Face) {
    && GapFree(log)
    && log.messages == MessagesOf(log.events)
    && (Whole(log) ==> Replay(log.events) == face)
    && (Unfinished(face.status) ==> Whole(log))
  }

  lemma EmitOk(log: Log, face: Face, body: EventBody)
    requires LogOk(log, face)
    requires Unfinished(ReplayStep(face, body).status) ==> Unfinished(face.status)
    ensures LogOk(Emit(log, body), ReplayStep(face, body))
  {
    var log' := Emit(log, body);
    assert log'.events[..|log.events|] == log.events;
    assert log.messages + [] == log.messages;
  }

  predicate Extends(log: Log, log': Log) {
    && log.sequence <= log'.sequence
    && log.events <= log'.events
    && log.messages <= log'.messages
  }

  predicate Cleared(log: Log, log': Log) {
    && log'.sequence == log.sequence
    && log'.events == []
    && log'.messages == []
  }

  /** Each saved message shares its sequence with exactly one event, and that
      event announces it. */
  lemma {:induction false} MessageHasItsEvent(events: seq<Event>, m: Message)
    requires forall i, j | 0 <= i < j < |events| :: events[i].sequence < events[j].sequence
    requires m in MessagesOf(events)
    ensures exists i :: 0 <= i < |events| && events[i].sequence == m.sequence
                        && events[i].body.MessageSaved?
                        && events[i].body.message == m.id && events[i].body.author == m.author
                        && forall j | 0 <= j < |events| && events[j].sequence == m.sequence :: j == i
  {
    var front, e := events[..|events| - 1], events[|events| - 1];
    if e.body.MessageSaved? && m == Message(e.body.message, e.sequence, e.body.author) {
      assert events[|events| - 1].sequence == m.sequence;
    } else {
      assert m in MessagesOf(front);
      MessageHasItsEvent(front, m);
      var i :| 0 <= i < |front| && front[i].sequence == m.sequence
               && front[i].body.MessageSaved?
               && front[i].body.message == m.id && front[i].body.author == m.author;
      assert events[i] == front[i];
    }
  }

  /** Each message_saved event has its message row. */
  lemma {:induction false} EventHasItsMessage(events: seq<Event>, i: nat)
    requires i < |events| && events[i].body.MessageSaved?
    ensures Message(events[i].body.message, events[i].sequence, events[i].body.author) in MessagesOf(events)
  {
    if i < |events| - 1 {
      EventHasItsMessage(events[..|events| - 1], i);
    }
  }
}
