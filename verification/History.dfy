/** What a task's rows say over its whole history: the event log, the status,
    the files and the rounds. */
module History {
  import opened TaskTypes
  import opened Holdings
  import opened EventLog
  import opened FileRules
  import opened Rounds
  import opened Protocol
  import opened Invariant
  import opened Runs

  lemma Parts(s: State, t: TaskId)
    requires Inv(s) && t in s.tasks
    ensures var c := s.tasks[t];
            && RowOk(c, s.next)
            && RoundsOk(c.rounds, c.status, c.pending, s.next)
            && HoldsOk(c.reservations, c.status, Occupies(c.rounds, c.status), s.next)
            && Backed(c.reservations, c.files, c.status)
            && FilesOk(c.files, c.committed, s.next)
            && LogOk(c.log, Face(c.status, c.reason))
  {
    hide RowOk, RoundsOk, HoldsOk, Occupies, Backed, FilesOk, LogOk, LedgerOk, SlotsOk, ListsOk;
  }

  // The files.

  /** The file rows and their ledger in every reachable task: the limits, the
      distinct names, and the retained bytes: none before the commit and after a
      deletion, and for a committed task that can still run exactly its live
      files' bytes, copy by copy. */
  lemma FileLedger(s: State, t: TaskId)
    requires Reachable(s) && t in s.tasks
    ensures var files := s.tasks[t].files;
            && LiveCount(files, Input) <= 10
            && LiveSize(files, Input) + LiveSize(files, Output) <= 10 * 1024 * 1024
            && (forall i | 0 <= i < |files| :: files[i].size <= 5 * 1024 * 1024)
            && (forall i, j | 0 <= i < j < |files| && Alive(files[i]) && Alive(files[j])
               && files[i].direction == files[j].direction ::
                  files[i].name != files[j].name)
    ensures s.tasks[t].status in {Uploading, Deleted} ==> Retained(s.tasks[t].reservations) == 0
    ensures var c := s.tasks[t];
            c.status in {Queued, Running, Ready} ==>
              && HeldBytes(c.reservations, HoldRoot) == LiveSize(c.files, Input)
              && Retained(c.reservations) == LiveTotal(c.files)
              && (forall i | 0 <= i < |c.files| && Alive(c.files[i]) && c.files[i].direction == Output ::
                    CopyBytes(c.reservations, c.files[i].id) == c.files[i].size)
  {
    hide Reachable, Inv, RowOk, RoundsOk, HoldsOk, Occupies, LogOk;
    ReachableOk(s);
    Parts(s, t);
  }

  // The event log.

  /** Exactly one event carries the message's sequence, and it announces it. */
  predicate Announced(log: Log, m: Message) {
    exists i :: 0 <= i < |log.events| && log.events[i].sequence == m.sequence
                && log.events[i].body.MessageSaved?
                && log.events[i].body.message == m.id && log.events[i].body.author == m.author
                && forall j | 0 <= j < |log.events| && log.events[j].sequence == m.sequence :: j == i
  }

  /** The event log of every reachable task: a gap-free interval that ends at
      event_sequence, and starts at 1 while the task lives; messages and
      message_saved events in one-to-one correspondence; and a replay of the
      uncleared log gives the row's status and reason. */
  lemma LogRefinesState(s: State, t: TaskId)
    requires Reachable(s) && t in s.tasks
    ensures var c, log := s.tasks[t], s.tasks[t].log;
            && (forall i | 0 <= i < |log.events| :: log.events[i].sequence == log.sequence - |log.events| + 1 + i)
            && (Unfinished(c.status) ==> |log.events| == log.sequence)
            && (forall m | m in log.messages :: Announced(log, m))
            && (forall e | e in log.events && e.body.MessageSaved? ::
               Message(e.body.message, e.sequence, e.body.author) in log.messages)
            && (|log.events| == log.sequence ==> Replay(log.events) == Face(c.status, c.reason))
  {
    hide Reachable, Inv, RowOk, RoundsOk, HoldsOk, Occupies, Backed, FilesOk, Replay, MessagesOf;
    ReachableOk(s);
    Parts(s, t);
    var log := s.tasks[t].log;
    forall m | m in log.messages ensures Announced(log, m) {
      MessageHasItsEvent(log.events, m);
    }
    forall e | e in log.events && e.body.MessageSaved?
      ensures Message(e.body.message, e.sequence, e.body.author) in log.messages
    {
      var i :| 0 <= i < |log.events| && log.events[i] == e;
      EventHasItsMessage(log.events, i);
    }
  }

  /** One step at a time, a task's log is appended to, or cleared once the task
      has ended; its sequence never goes back. */
  predicate Appended(c: Cell, c': Cell) {
    && c.log.sequence <= c'.log.sequence
    && (Unfinished(c'.status) ==> Extends(c.log, c'.log))
    && (!Unfinished(c.status) ==> !Unfinished(c'.status))
  }

  /** Once committed, the inputs stay what they were. */
  function Inputs(files: seq<File>): seq<File> {
    if files == [] then [] else
      var f := files[|files| - 1];
      Inputs(files[..|files| - 1]) + (if f.direction == Input then [f.(producedIn := None)] else [])
  }

  lemma {:induction false} FrozenInputs(files: seq<File>, files': seq<File>)
    requires InputsFrozen(files, files')
    ensures Inputs(files') == Inputs(files)
    decreases |files'|
  {
    if |files| < |files'| {
      FrozenInputs(files, files'[..|files'| - 1]);
      assert Inputs(files'[..|files'| - 1]) + [] == Inputs(files'[..|files'| - 1]);
    } else if files != [] {
      FrozenInputs(files[..|files| - 1], files'[..|files'| - 1]);
    }
  }

  /** Ended tasks only ever become deleted. */
  predicate Lasting(s: Status, s': Status) {
    s in {Completed, Failed, Aborted, Deleted} ==> s' == s || s' == Deleted
  }

  /** What holds between a task now and the same task later. */
  predicate Later(c: Cell, c': Cell) {
    && c'.owner == c.owner
    && Appended(c, c')
    && Lasting(c.status, c'.status)
    && (c.committed ==> c'.committed && Inputs(c'.files) == Inputs(c.files))
  }

  lemma StepIsLater(c: Cell, c': Cell, bound: nat)
    requires CellStep(c, c', bound)
    ensures Later(c, c')
  {
    hide RoundsMove, HasOpen, InputsFrozen, Inputs;
    if c.committed { FrozenInputs(c.files, c'.files); }
  }

  lemma LaterCompose(a: Cell, b: Cell, c: Cell)
    requires Later(a, b) && Later(b, c)
    ensures Later(a, c)
  {
    hide Inputs;
  }

  /** A task that is gone does not come back under its old id. */
  lemma GoneStays(s: State, a: Action, t: TaskId)
    requires Inv(s) && t < s.next && t !in s.tasks
    ensures t < Apply(s, a).state.next && t !in Apply(s, a).state.tasks
  {
    hide Inv, Apply, CellStep;
    StepOk(s, a);
  }

  predicate Hereafter(s: State, s': State, t: TaskId)
    requires t in s.tasks
  {
    t < s'.next && (t in s'.tasks ==> Later(s.tasks[t], s'.tasks[t]))
  }

  lemma {:induction false} HistoryStep(s: State, m: State, a: Action, t: TaskId)
    requires t in s.tasks && Inv(m) && Hereafter(s, m, t)
    ensures Hereafter(s, Apply(m, a).state, t)
  {
    hide Inv, Apply, CellStep, Later;
    StepOk(m, a);
    var s' := Apply(m, a).state;
    if t in s'.tasks {
      if t in m.tasks {
        StepIsLater(m.tasks[t], s'.tasks[t], m.next);
        LaterCompose(s.tasks[t], m.tasks[t], s'.tasks[t]);
      } else {
        GoneStays(m, a, t);
      }
    }
  }

  /** Over any run: a surviving task's log keeps every event it had while it
      lives, its end is final up to deletion, and committed input is frozen. */
  lemma {:induction false} HistoryKept(s: State, actions: seq<Action>, t: TaskId)
    requires Reachable(s) && t in s.tasks
    ensures Hereafter(s, Run(s, actions), t)
  {
    hide Inv, Apply, Hereafter;
    ReachableOk(s);
    if actions == [] {
      StillThere(s, t);
    } else {
      var front := actions[..|actions| - 1];
      HistoryKept(s, front, t);
      RunOk(s, front);
      HistoryStep(s, Run(s, front), actions[|actions| - 1], t);
    }
  }

  lemma StillThere(s: State, t: TaskId)
    requires Inv(s) && t in s.tasks
    ensures Hereafter(s, s, t)
  {
    hide CellOk, LedgerOk, SlotsOk, ListsOk, Inputs;
  }
}
