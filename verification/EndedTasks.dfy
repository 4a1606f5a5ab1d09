/** Tasks that have ended: what may still happen to them, and that their log is
    whole until the retention sweep takes it. */
module EndedTasks {
  import opened TaskTypes
  import opened EventLog
  import opened Rounds
  import opened Protocol
  import opened Invariant
  import opened Steps
  import opened Preservation
  import opened Runs
  import opened History
  import opened Intent
  import opened MassPreservation
  import opened Progress

  /** A deletion, the collection of a round that was left cancelling, and the
      retention sweep. */
  predicate Lingers(a: Action, t: TaskId) {
    (a.ADelete? && a.task == t) || (a.ACancelRound? && a.task == t) || a == ASweepEnded(t)
  }

  /** An ended task has no round that runs or waits. */
  predicate AtRest(c: Cell) {
    && !Unfinished(c.status)
    && (HasOpen(c.rounds) ==> Last(c).state == RCancelling)
  }

  lemma AtRestKnown(s: State, t: TaskId)
    requires Inv(s) && t in s.tasks && !Unfinished(s.tasks[t].status)
    ensures AtRest(s.tasks[t])
  {
    hide Inv, RowOk, HoldsOk, Occupies, Backed, LogOk;
    Parts(s, t);
  }

  lemma EndedUser(s: State, a: Action, t: TaskId)
    requires t in s.tasks && AtRest(s.tasks[t]) && UserStep(a) && Targets(a, t)
    ensures t in Apply(s, a).state.tasks
    ensures Apply(s, a).state.tasks[t] != s.tasks[t] ==> Lingers(a, t)
  {
    hide TierStep, QuietStep, Put, NewCell, CommittedCell, Delete;
    hide Claim, Reclaim, CancelRound, SweepUpload, ListEnded, SweepEnded, PersistFact, Settle, FailDeadline,
      ListDrained, Reconcile, Stop, RegisterOutput, RevokeProvider, DeleteAccount, SetQuota;
    if a.ADelete? { DeleteKeepsTask(s, a.owner, t); }
  }

  lemma DeleteKeepsTask(s: State, owner: UserId, t: TaskId)
    requires t in s.tasks
    ensures t in Delete(s, owner, t).state.tasks
  {
    hide Closed, Move, Cancelling, GiveTier;
  }

  lemma EndedSweep(s: State, a: Action, t: TaskId)
    requires t in s.tasks && AtRest(s.tasks[t]) && SweepStep(a) && Targets(a, t)
    ensures t in Apply(s, a).state.tasks
    ensures Apply(s, a).state.tasks[t] != s.tasks[t] ==> Lingers(a, t)
  {
    hide Claimed, Reclaimed, Collected, Turn, Swept, GiveTier, Give;
    hide Create, UploadFiles, DeleteFile, Commit, Send, Finish, Delete, PersistFact, Settle, FailDeadline,
      ListDrained, Reconcile, Stop, RegisterOutput, RevokeProvider, DeleteAccount, SetQuota;
  }

  lemma EndedWrite(s: State, a: Action, t: TaskId)
    requires t in s.tasks && AtRest(s.tasks[t]) && !UserStep(a) && !SweepStep(a) && Targets(a, t)
    ensures t in Apply(s, a).state.tasks && Apply(s, a).state.tasks[t] == s.tasks[t]
  {
    hide TierStep, QuietStep, Put, Replaced;
    hide Create, UploadFiles, DeleteFile, Commit, Send, Finish, Delete, Claim, Reclaim, CancelRound, SweepUpload,
      ListEnded, SweepEnded, RevokeProvider, DeleteAccount, SetQuota;
  }

  /** Nothing else ever changes an ended task. */
  lemma EndedSteps(s: State, a: Action, t: TaskId)
    requires Inv(s) && t in s.tasks && !Unfinished(s.tasks[t].status) && t in Apply(s, a).state.tasks
    requires Apply(s, a).state.tasks[t] != s.tasks[t]
    ensures Lingers(a, t)
  {
    hide Inv, Apply, AtRest, Lingers;
    AtRestKnown(s, t);
    if !Targets(a, t) {
      Elsewhere(s, a, t);
    } else if UserStep(a) {
      EndedUser(s, a, t);
    } else if SweepStep(a) {
      EndedSweep(s, a, t);
    } else {
      EndedWrite(s, a, t);
    }
  }

  // The log is whole until it is swept.

  lemma DeletedExtends(s: State, owner: UserId, t: TaskId)
    requires Inv(s) && t in s.tasks && !Unfinished(s.tasks[t].status)
    ensures t in Delete(s, owner, t).state.tasks && Extends(s.tasks[t].log, Delete(s, owner, t).state.tasks[t].log)
  {
    hide Inv, RowOk, RoundsOk, HoldsOk, Backed, Closed, Move, LogOk, FreeSlots;
    Parts(s, t);
    if Visible(s, owner, t) {
      MoveExtends(s.tasks[t]);
    }
  }

  lemma MoveExtends(c: Cell)
    requires LogOk(c.log, Face(c.status, c.reason)) && !Unfinished(c.status)
    ensures Extends(c.log, Closed(Move(c, Deleted), None).log)
  {
    hide LogOk, Closed;
    MoveOk(c, Deleted);
    ClosedLog(Move(c, Deleted), None);
    hide Move;
  }

  lemma CollectedExtends(s: State, t: TaskId, rid: RoundId)
    requires Inv(s) && t in s.tasks
    ensures t in CancelRound(s, t, rid).state.tasks
    ensures Extends(s.tasks[t].log, CancelRound(s, t, rid).state.tasks[t].log)
  {
    hide Inv, CellOk, FreeSlots, Collected, RoundsMove, RoundsOk, LogOk, Extends;
    Known(s, t);
    if LastIs(s.tasks[t].rounds, rid, RCancelling) {
      CollectedEdit(s.tasks[t], s.next);
    } else {
      SameExtends(s.tasks[t].log);
    }
  }

  lemma SameExtends(log: Log)
    ensures Extends(log, log)
  {
  }

  predicate Started(log: Log) {
    Whole(log) && log.sequence >= 1
  }

  lemma StartedExtends(log: Log, log': Log)
    requires Started(log) && GapFree(log) && GapFree(log') && Extends(log, log')
    ensures Started(log')
  {
    assert log'.events[0] == log.events[0];
  }

  /** A task that was never listed for the sweep keeps its log from the start. */
  lemma LogKept(s: State, a: Action, t: TaskId)
    requires Inv(s) && t in s.tasks && t in Apply(s, a).state.tasks && t !in s.ended
    ensures Extends(s.tasks[t].log, Apply(s, a).state.tasks[t].log)
  {
    hide Inv, Apply, RoundsMove, InputsFrozen, Edge, HasOpen, Extends;
    StepOk(s, a);
    if !Unfinished(s.tasks[t].status) {
      if Apply(s, a).state.tasks[t] == s.tasks[t] {
        SameExtends(s.tasks[t].log);
      } else {
        EndedSteps(s, a, t);
        LingeringExtends(s, a, t);
      }
    }
  }

  lemma LingeringExtends(s: State, a: Action, t: TaskId)
    requires Inv(s) && t in s.tasks && t in Apply(s, a).state.tasks && t !in s.ended
    requires !Unfinished(s.tasks[t].status) && Lingers(a, t)
    ensures Extends(s.tasks[t].log, Apply(s, a).state.tasks[t].log)
  {
    hide Inv, Extends, Delete, CancelRound;
    hide Create, UploadFiles, DeleteFile, Commit, Send, Finish, Claim, Reclaim, SweepUpload, ListEnded, PersistFact,
      Settle, FailDeadline, ListDrained, Reconcile, Stop, RegisterOutput, RevokeProvider, DeleteAccount, SetQuota;
    if a.ADelete? {
      DeletedExtends(s, a.owner, t);
    } else if a.ACancelRound? {
      CollectedExtends(s, t, a.rid);
    } else {
      SameExtends(s.tasks[t].log);
    }
  }

  ghost predicate AllStarted(s: State) {
    forall t | t in s.tasks && t !in s.ended :: Started(s.tasks[t].log)
  }

  lemma StartedStep(s: State, a: Action)
    requires Inv(s) && AllStarted(s)
    ensures AllStarted(Apply(s, a).state)
  {
    hide Inv, Apply, Started, CellStep;
    StepOk(s, a);
    var s' := Apply(s, a).state;
    forall t | t in s'.tasks && t !in s'.ended ensures Started(s'.tasks[t].log) {
      LogKnown(s', t);
      if t in s.tasks {
        LogKnown(s, t);
        LogKept(s, a, t);
        StartedExtends(s.tasks[t].log, s'.tasks[t].log);
      } else {
        BornStarted(s, a, t);
      }
    }
  }

  lemma LogKnown(s: State, t: TaskId)
    requires Inv(s) && t in s.tasks
    ensures GapFree(s.tasks[t].log)
  {
    hide Inv, RowOk, RoundsOk, HoldsOk, Occupies, Backed, MessagesOf, Replay;
    Parts(s, t);
  }

  lemma CommitSendKeys(s: State, a: Action)
    requires a.ACommit? || a.ASend?
    ensures Apply(s, a).state.tasks.Keys == s.tasks.Keys
  {
    hide CommittedCell, Sent, HasOpen;
    hide Create, UploadFiles, DeleteFile, Finish, Delete, Claim, Reclaim, CancelRound, SweepUpload, ListEnded,
      SweepEnded, PersistFact, Settle, FailDeadline, ListDrained, Reconcile, Stop, RegisterOutput, RevokeProvider,
      DeleteAccount, SetQuota;
  }

  lemma MassKeys(s: State, a: Action)
    requires Inv(s) && (a.ARevokeProvider? || a.ADeleteAccount? || a.ASetQuota?)
    ensures Apply(s, a).state.tasks.Keys <= s.tasks.Keys
  {
    hide Inv, Evolves, RevokeBelow, EvictSlots;
    hide Create, UploadFiles, DeleteFile, Commit, Send, Finish, Delete, Claim, Reclaim, CancelRound, SweepUpload,
      ListEnded, SweepEnded, PersistFact, Settle, FailDeadline, ListDrained, Reconcile, Stop, RegisterOutput;
    if a.ARevokeProvider? { RevokeBelowOk(s, a.owner, a.provider, s.next); }
  }

  /** Only a creation brings a task that was not there. */
  lemma NoNewTask(s: State, a: Action)
    requires Inv(s) && !a.ACreate?
    ensures Apply(s, a).state.tasks.Keys <= s.tasks.Keys
  {
    hide Inv, Apply, Work;
    if a.ARevokeProvider? || a.ADeleteAccount? || a.ASetQuota? {
      MassKeys(s, a);
    } else if a.ACommit? || a.ASend? {
      CommitSendKeys(s, a);
    } else if a.task in s.tasks {
      TargetWork(s, a, a.task);
    } else {
      NoTask(s, a, a.task);
    }
  }

  lemma BornStarted(s: State, a: Action, t: TaskId)
    requires Inv(s) && t !in s.tasks && t in Apply(s, a).state.tasks
    ensures Started(Apply(s, a).state.tasks[t].log)
  {
    hide Inv;
    if a.ACreate? {
      hide UploadFiles, DeleteFile, Commit, Send, Finish, Delete, Claim, Reclaim, CancelRound, SweepUpload, ListEnded,
        SweepEnded, PersistFact, Settle, FailDeadline, ListDrained, Reconcile, Stop, RegisterOutput, RevokeProvider,
        DeleteAccount, SetQuota;
    } else {
      hide Apply, Started;
      NoNewTask(s, a);
    }
  }

  lemma {:induction false} RunStarted(slotCount: nat, maxStorage: nat, actions: seq<Action>)
    ensures AllStarted(Run(Init(slotCount, maxStorage), actions))
  {
    hide Inv, Apply, Started;
    if actions == [] {
    } else {
      var front := actions[..|actions| - 1];
      RunStarted(slotCount, maxStorage, front);
      InitOk(slotCount, maxStorage);
      RunOk(Init(slotCount, maxStorage), front);
      StartedStep(Run(Init(slotCount, maxStorage), front), actions[|actions| - 1]);
    }
  }

  /** Until a task is listed for the retention sweep, ended or not, its event
      sequences are exactly 1, 2, ... up to event_sequence, and replaying them
      gives its status and reason. */
  lemma LogFromTheStart(s: State, t: TaskId)
    requires Reachable(s) && t in s.tasks && t !in s.ended
    ensures var c, log := s.tasks[t], s.tasks[t].log;
            && |log.events| == log.sequence >= 1
            && (forall i | 0 <= i < |log.events| :: log.events[i].sequence == i + 1)
            && Replay(log.events) == Face(c.status, c.reason)
  {
    hide Inv, Run, Apply, Replay, RowOk, RoundsOk, HoldsOk, Occupies, Backed, MessagesOf;
    var n: nat, m: nat, actions: seq<Action> :| s == Run(Init(n, m), actions);
    RunStarted(n, m, actions);
    ReachableOk(s);
    Parts(s, t);
  }
}
