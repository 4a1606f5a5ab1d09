/** The transactions that end rounds and tasks, and those that move no counter:
    the invariant survives each, every task moves only as a step may, and a
    refused transaction leaves the database as it was. */
module Preservation {
  import opened TaskTypes
  import opened EventLog
  import opened FileRules
  import opened Rounds
  import opened Protocol
  import opened Invariant
  import opened Conservation
  import opened Steps

  // The edits, one cell at a time.

  lemma TurnedEdit(c: Cell, status: Status, reason: Option<Reason>, bound: nat)
    requires CellOk(c, bound) && !HasOpen(c.rounds)
    requires status in ValidTransitions(c.status) && !Unfinished(status) && status != Deleted
    requires c.status in {Uploading, Ready}
    ensures TierEdit(c, Turn(c, status, reason), bound, bound)
  {
    hide FilesOk, HoldsOk, Backed, LogOk, Emit;
    SameRoundsOk(c.rounds, c.status, c.pending, status, c.pending, bound, bound);
    TurnOk(c, status, reason);
  }

  function ClosedRounds(rs: seq<Round>): seq<Round> {
    if HasOpen(rs) then rs[|rs| - 1 := rs[|rs| - 1].(state := RCancelled)] else rs
  }

  lemma ClosedLog(c: Cell, cause: Option<Reason>)
    requires LogOk(c.log, Face(c.status, c.reason))
    ensures var c' := Closed(c, cause);
            && LogOk(c'.log, Face(c.status, c.reason)) && Extends(c.log, c'.log)
            && c'.(log := c.log) == c.(rounds := ClosedRounds(c.rounds))
  {
    hide LogOk, Emit;
    if HasOpen(c.rounds) {
      SayOk(SetLast(c, Last(c).(state := RCancelled)), RoundCancelled(None, cause));
    }
  }

  lemma ClosedRoundsOk(rs: seq<Round>, status: Status, pending: Option<Terminal>, status': Status, bound: nat)
    requires RoundsOk(rs, status, pending, bound) && status != Running
    requires !Unfinished(status') && IntentOk(status', pending)
    ensures RoundsOk(ClosedRounds(rs), status', pending, bound)
    ensures RoundsMove(rs, ClosedRounds(rs), bound)
    ensures !HasOpen(ClosedRounds(rs))
  {
    if HasOpen(rs) {
      SetLastOk(rs, rs[|rs| - 1].(state := RCancelled), status, pending, status', pending, bound, bound);
    } else {
      SameRoundsOk(rs, status, pending, status', pending, bound, bound);
    }
  }

  lemma ClosedEdit(c: Cell, status: Status, reason: Option<Reason>, cause: Option<Reason>, bound: nat)
    requires CellOk(c, bound) && c.status == Queued
    requires status in {Completed, Aborted}
    ensures TierEdit(c, Closed(Turn(c, status, reason), cause), bound, bound)
  {
    hide FilesOk, HoldsOk, Backed, LogOk, Emit, RoundsMove;
    TurnOk(c, status, reason);
    ClosedLog(Turn(c, status, reason), cause);
    hide Closed;
    ClosedRoundsOk(c.rounds, Queued, c.pending, status, bound);
    hide RoundsOk, ClosedRounds;
  }

  lemma DeletedEdit(c: Cell, bound: nat)
    requires CellOk(c, bound) && c.status !in {Running, Deleted}
    ensures TierEdit(c, Closed(Move(c, Deleted), None), bound, bound)
  {
    hide FilesOk, HoldsOk, Backed, LogOk, Emit, RoundsMove;
    MoveOk(c, Deleted);
    ClosedLog(Move(c, Deleted), None);
    hide Closed;
    ClosedRoundsOk(c.rounds, c.status, c.pending, Deleted, bound);
    hide RoundsOk, ClosedRounds;
  }

  lemma BuriedEdit(c: Cell, bound: nat)
    requires CellOk(c, bound) && c.status == Running
    ensures TierEdit(c, Move(Cancelling(c, ToDeleted), Deleted), bound, bound)
  {
    hide FilesOk, HoldsOk, Backed, LogOk, Emit;
    if HasOpen(c.rounds) {
      SetLastOk(c.rounds, Last(c).(state := RCancelling), Running, c.pending, Deleted, Some(ToDeleted), bound, bound);
    } else {
      SameRoundsOk(c.rounds, Running, c.pending, Deleted, Some(ToDeleted), bound, bound);
    }
    MoveOk(Cancelling(c, ToDeleted), Deleted);
  }

  lemma RoundLostEdit(c: Cell, bound: nat)
    requires CellOk(c, bound) && |c.rounds| > 0 && Last(c).state == RRunning
    ensures TierEdit(c, RoundLostCell(c), bound, bound)
  {
    hide FilesOk, HoldsOk, Backed, LogOk, Emit;
    var c1 := EndRound(c, RFailed);
    SetLastOk(c.rounds, Last(c1), Running, c.pending, Failed, c.pending, bound, bound);
    TurnOk(c1, Failed, Some(RoundLost));
    SayOk(Turn(c1, Failed, Some(RoundLost)), RoundFailed(Last(c).id, Last(c).attempt));
  }

  lemma RequeuedEdit(c: Cell, bound: nat)
    requires CellOk(c, bound) && |c.rounds| > 0 && Last(c).state == RRunning && Last(c).attempt < ATTEMPT_LIMIT
    ensures TierEdit(c, Requeued(c), bound, bound)
  {
    hide FilesOk, HoldsOk, Backed, LogOk, Emit;
    var c1 := EndRound(c, RPending);
    SetLastOk(c.rounds, Last(c1), Running, c.pending, Queued, c.pending, bound, bound);
    MoveOk(c1, Queued);
    SayOk(Move(c1, Queued), RoundQueued(Last(c).id, Some(Last(c).attempt)));
  }

  lemma CollectedEdit(c: Cell, bound: nat)
    requires CellOk(c, bound) && |c.rounds| > 0 && Last(c).state == RCancelling
    ensures TierEdit(c, Collected(c), bound, bound)
  {
    hide FilesOk, HoldsOk, Backed, LogOk, Emit;
    var c1 := EndRound(c, RCancelled);
    SetLastOk(c.rounds, Last(c1), c.status, c.pending, c.status, c.pending, bound, bound);
    SayOk(c1, RoundCancelled(Some(Last(c).id), None));
  }

  lemma SettledLog(c: Cell, mid: MessageId, tail: bool, revoked: bool)
    requires |c.rounds| > 0 && c.status == Running
    requires LogOk(c.log, Face(c.status, c.reason))
    ensures var c' := Settled(c, mid, tail, revoked);
            && LogOk(c'.log, Face(c'.status, c'.reason)) && Extends(c.log, c'.log)
            && c'.(log := c.log) == c.(
                 status := if revoked then Aborted else Ready,
                 reason := if revoked then Some(KeyRevoked) else None,
                 rounds := c.rounds[|c.rounds| - 1 := Last(c).(state := RSettled)])
  {
    hide LogOk, Emit;
    var rid := Last(c).id;
    var c1 := SetLast(c, Last(c).(state := RSettled));
    if tail { SayOk(c1, MessageSaved(mid, ByAssistant, Some(rid))); }
    var c2 := if tail then Say(c1, MessageSaved(mid, ByAssistant, Some(rid))) else c1;
    SayOk(c2, RoundSettled(rid, Last(c).attempt));
    var c3 := Say(c2, RoundSettled(rid, Last(c).attempt));
    TurnOk(c3, if revoked then Aborted else Ready, if revoked then Some(KeyRevoked) else None);
  }

  lemma SettledEdit(c: Cell, mid: MessageId, tail: bool, revoked: bool, bound: nat, bound': nat)
    requires CellOk(c, bound) && |c.rounds| > 0 && Last(c).state == RRunning && bound <= bound'
    ensures TierEdit(c, Settled(c, mid, tail, revoked), bound, bound')
  {
    hide FilesOk, HoldsOk, Backed, LogOk, Emit, Extends;
    SetLastOk(c.rounds, Last(c).(state := RSettled), Running, None, if revoked then Aborted else Ready, None, bound,
        bound');
    SettledLog(c, mid, tail, revoked);
    hide RoundsOk, RoundsMove, Settled;
  }

  lemma ReconciledEdit(c: Cell, terminal: Terminal, bound: nat)
    requires CellOk(c, bound) && c.status == Running && c.pending == Some(terminal) && !HasOpen(c.rounds)
    ensures TierEdit(c, Reconciled(c, terminal), bound, bound)
  {
    hide FilesOk, HoldsOk, Backed, LogOk, Emit;
    SameRoundsOk(c.rounds, Running, c.pending, StatusOf(terminal), None, bound, bound);
    TurnOk(c.(pending := None), StatusOf(terminal), ReasonFor(terminal));
  }

  lemma StoppedEdit(c: Cell, reason: Reason, bound: nat)
    requires CellOk(c, bound) && c.status in {Queued, Running}
    ensures TierEdit(c, Stopped(c, reason), bound, bound)
  {
    hide FilesOk, HoldsOk, Backed, LogOk, Emit, Extends;
    StoppedLog(c, reason);
    hide Stopped;
    if HasOpen(c.rounds) {
      SetLastOk(c.rounds, Last(c).(state := RCancelled, leaseOwner := None), c.status, c.pending, Aborted, None,
          bound, bound);
    } else {
      SameRoundsOk(c.rounds, c.status, c.pending, Aborted, None, bound, bound);
    }
    hide RoundsOk, RoundsMove;
  }

  lemma StoppedLog(c: Cell, reason: Reason)
    requires Unfinished(c.status) && LogOk(c.log, Face(c.status, c.reason))
    ensures var c' := Stopped(c, reason);
            && LogOk(c'.log, Face(Aborted, Some(reason))) && Extends(c.log, c'.log)
            && c'.status == Aborted && c'.reason == Some(reason) && c'.pending == None && SameRow(c, c')
            && c'.rounds == if HasOpen(c.rounds)
                            then c.rounds[|c.rounds| - 1 := Last(c).(state := RCancelled, leaseOwner := None)]
                            else c.rounds
  {
    hide LogOk, Emit;
    TurnOk(c.(pending := None), Aborted, Some(reason));
    var c1 := Turn(c.(pending := None), Aborted, Some(reason));
    if HasOpen(c.rounds) {
      SayOk(EndRound(c1, RCancelled), RoundCancelled(Some(Last(c).id), Some(reason)));
    }
  }

  lemma CancellingOk(c: Cell, terminal: Terminal, bound: nat)
    requires CellOk(c, bound) && c.status == Running && HasOpen(c.rounds) && terminal != ToDeleted
    ensures CellOk(Cancelling(c, terminal), bound) && CellStep(c, Cancelling(c, terminal), bound)
  {
    hide FilesOk, LogOk;
    var r := Last(c).(state := RCancelling);
    SetLastOk(c.rounds, r, Running, c.pending, Running, Some(terminal), bound, bound);
    CellStill(c, bound);
    hide RoundsOk, RoundsMove, Backed;
  }

  /** Between queued and ready the same holds and bytes are asked for. */
  lemma RestingHolds(c: Cell, status: Status, bound: nat, bound': nat)
    requires c.status in {Queued, Ready} && status in {Queued, Ready} && bound <= bound'
    requires HoldsOk(c.reservations, c.status, false, bound) && Backed(c.reservations, c.files, c.status)
    ensures HoldsOk(c.reservations, status, false, bound') && Backed(c.reservations, c.files, status)
  {
  }

  lemma SentOk(c: Cell, bound: nat)
    requires CellOk(c, bound) && c.status == Ready
    ensures CellOk(Sent(c, bound, bound + 1), bound + 2) && CellStep(c, Sent(c, bound, bound + 1), bound)
  {
    hide LogOk, Emit, Extends, HoldsOk, Backed, FilesOk, InputsFrozen, RoundsMove;
    SentLog(c, bound, bound + 1);
    AddRoundOk(c.rounds, NewRound(bound + 1, bound), Ready, bound, bound + 2);
    hide RoundsOk;
    RestingHolds(c, Queued, bound, bound + 2);
    CellOkLater(c, bound, bound + 2);
    CellStill(c, bound);
  }

  lemma SentLog(c: Cell, mid: MessageId, rid: RoundId)
    requires c.status == Ready && c.reason == None
    requires LogOk(c.log, Face(c.status, c.reason))
    ensures LogOk(Sent(c, mid, rid).log, Face(Queued, None)) && Extends(c.log, Sent(c, mid, rid).log)
  {
    hide LogOk, Emit;
    SayOk(c, MessageSaved(mid, ByUser, None));
    var c1 := Say(c, MessageSaved(mid, ByUser, None)).(rounds := c.rounds + [NewRound(rid, mid)]);
    MoveOk(c1, Queued);
    SayOk(Move(c1, Queued), RoundQueued(rid, None));
  }

  lemma SaidOk(c: Cell, body: EventBody, bound: nat)
    requires CellOk(c, bound) && !body.StatusChanged?
    ensures CellOk(Say(c, body), bound + 1) && CellStep(c, Say(c, body), bound)
  {
    hide LogOk, Emit, Extends;
    SayOk(c, body);
    CellOkLater(c, bound, bound + 1);
    CellStill(c, bound);
    hide RoundsOk, FilesOk, HoldsOk, Backed, RoundsMove, InputsFrozen;
  }

  lemma StagedOk(c: Cell, uploads: seq<Upload>, bound: nat)
    requires CellOk(c, bound) && c.status == Uploading
    requires BatchNamesOk(c.files, uploads) && BatchWithinLimits(c.files, uploads)
    ensures var c' := c.(files := Stage(c.files, uploads, bound));
            CellOk(c', bound + |uploads|) && CellStep(c, c', bound)
  {
    hide LogOk, Stage;
    StageOk(c.files, uploads, bound);
    CellOkLater(c, bound, bound + |uploads|);
    CellStill(c, bound);
    hide FilesOk, RoundsOk, RoundsMove;
  }

  lemma UnstagedOk(c: Cell, i: nat, bound: nat)
    requires CellOk(c, bound) && c.status == Uploading && i < |c.files|
    ensures var c' := c.(files := c.files[i := c.files[i].(state := Tombstone)]);
            CellOk(c', bound) && CellStep(c, c', bound)
  {
    hide LogOk;
    TombstoneOk(c.files, i, c.committed, bound);
    CellStill(c, bound);
    hide FilesOk, RoundsOk, RoundsMove;
  }

  // The transactions.

  lemma FinishOk(s: State, owner: UserId, t: TaskId, terminal: Terminal)
    requires Inv(s) && terminal != ToDeleted
    ensures Good(s, Finish(s, owner, t, terminal))
  {
    hide Inv, TierEdit, TierStep, Closed, Turn, Good, QuietStep, Cancelling;
    if Visible(s, owner, t) {
      Known(s, t);
      var c := s.tasks[t];
      if c.status == Queued {
        ClosedEdit(c, StatusOf(terminal), ReasonFor(terminal), ReasonFor(terminal), s.next);
        TierStepOk(s, t, Closed(Turn(c, StatusOf(terminal), ReasonFor(terminal)), ReasonFor(terminal)), s.next);
      } else if c.status == Ready {
        TurnedEdit(c, StatusOf(terminal), ReasonFor(terminal), s.next);
        TierStepOk(s, t, Turn(c, StatusOf(terminal), ReasonFor(terminal)), s.next);
      } else if c.status == Running {
        RequestTerminalOk(s, t, terminal);
      } else {
        StandsStill(s, Finish(s, owner, t, terminal));
      }
    } else {
      StandsStill(s, Finish(s, owner, t, terminal));
    }
  }

  lemma RequestTerminalOk(s: State, t: TaskId, terminal: Terminal)
    requires Inv(s) && t in s.tasks && s.tasks[t].status == Running && terminal != ToDeleted
    ensures Good(s, RequestTerminal(s, t, terminal))
  {
    hide Inv, CellStep, CellOk, QuietStep;
    Known(s, t);
    if HasOpen(s.tasks[t].rounds) {
      CancellingOk(s.tasks[t], terminal, s.next);
      QuietStepOk(s, t, Cancelling(s.tasks[t], terminal), s.next);
    } else {
      StandsStill(s, RequestTerminal(s, t, terminal));
    }
  }

  lemma DeleteOk(s: State, owner: UserId, t: TaskId)
    requires Inv(s)
    ensures Good(s, Delete(s, owner, t))
  {
    hide Inv, TierEdit, TierStep, Closed, Move, Good, Cancelling, CellOk;
    if !Visible(s, owner, t) {
      StandsStill(s, Delete(s, owner, t));
    } else {
      Known(s, t);
      if s.tasks[t].status == Running {
        BuriedEdit(s.tasks[t], s.next);
        TierStepOk(s, t, Move(Cancelling(s.tasks[t], ToDeleted), Deleted), s.next);
      } else {
        DeletedEdit(s.tasks[t], s.next);
        TierStepOk(s, t, Closed(Move(s.tasks[t], Deleted), None), s.next);
      }
    }
  }

  lemma ReclaimOk(s: State, t: TaskId, rid: RoundId, lo: Option<Instance>, le: nat)
    requires Inv(s)
    ensures Good(s, Reclaim(s, t, rid, lo, le))
  {
    hide Inv, TierEdit, TierStep, Good, CellOk, RoundLostCell, Requeued;
    if t !in s.tasks || !LastUnder(s.tasks[t].rounds, rid, lo, le) {
      StandsStill(s, Reclaim(s, t, rid, lo, le));
    } else {
      Known(s, t);
      var c := s.tasks[t];
      if Last(c).attempt >= ATTEMPT_LIMIT { RoundLostEdit(c, s.next); } else { RequeuedEdit(c, s.next); }
      TierStepOk(s, t, Reclaimed(c), s.next);
    }
  }

  lemma CancelRoundOk(s: State, t: TaskId, rid: RoundId)
    requires Inv(s)
    ensures Good(s, CancelRound(s, t, rid))
  {
    hide Inv, TierEdit, TierStep, Good, CellOk, Collected;
    if t !in s.tasks || !LastIs(s.tasks[t].rounds, rid, RCancelling) {
      StandsStill(s, CancelRound(s, t, rid));
    } else {
      Known(s, t);
      CollectedEdit(s.tasks[t], s.next);
      TierStepOk(s, t, Collected(s.tasks[t]), s.next);
    }
  }

  lemma UploadingHasNoRound(c: Cell, bound: nat)
    requires CellOk(c, bound) && c.status == Uploading
    ensures c.rounds == [] && !HasOpen(c.rounds)
  {
  }

  lemma SweepUploadOk(s: State, t: TaskId)
    requires Inv(s)
    ensures Good(s, SweepUpload(s, t))
  {
    hide Inv, TierEdit, TierStep, Good, CellOk, Turn;
    if t !in s.tasks || s.tasks[t].status != Uploading {
      StandsStill(s, SweepUpload(s, t));
    } else {
      Known(s, t);
      UploadingHasNoRound(s.tasks[t], s.next);
      TurnedEdit(s.tasks[t], Failed, Some(UploadExpired), s.next);
      TierStepOk(s, t, Turn(s.tasks[t], Failed, Some(UploadExpired)), s.next);
    }
  }

  lemma FailDeadlineOk(s: State, t: TaskId, rid: RoundId, iid: Instance, epoch: nat)
    requires Inv(s)
    ensures Good(s, FailDeadline(s, t, rid, iid, epoch))
  {
    hide Inv, TierEdit, TierStep, Good, CellOk, RoundLostCell;
    if t !in s.tasks || !LastUnder(s.tasks[t].rounds, rid, Some(iid), epoch) {
      StandsStill(s, FailDeadline(s, t, rid, iid, epoch));
    } else {
      Known(s, t);
      RoundLostEdit(s.tasks[t], s.next);
      TierStepOk(s, t, RoundLostCell(s.tasks[t]), s.next);
    }
  }

  lemma SettleOk(s: State, t: TaskId, rid: RoundId, iid: Instance, epoch: nat, tail: bool, revoked: bool)
    requires Inv(s)
    ensures Good(s, Settle(s, t, rid, iid, epoch, tail, revoked))
  {
    hide Inv, TierEdit, TierStep, Good, CellOk, Settled;
    if t !in s.tasks || !LastUnder(s.tasks[t].rounds, rid, Some(iid), epoch) {
      StandsStill(s, Settle(s, t, rid, iid, epoch, tail, revoked));
    } else {
      Known(s, t);
      var next := s.next + if tail then 1 else 0;
      SettledEdit(s.tasks[t], s.next, tail, revoked, s.next, next);
      TierStepOk(s, t, Settled(s.tasks[t], s.next, tail, revoked), next);
    }
  }

  /** The reconciler's candidate, however old, still has no open round. */
  lemma DrainedStays(s: State, t: TaskId, terminal: Terminal)
    requires Inv(s) && (t, terminal) in s.drained && t in s.tasks
    ensures !HasOpen(s.tasks[t].rounds)
  {
    hide CellOk, LedgerOk, SlotsOk;
  }

  lemma ReconcileOk(s: State, t: TaskId, terminal: Terminal)
    requires Inv(s)
    ensures Good(s, Reconcile(s, t, terminal))
  {
    hide Inv, TierEdit, TierStep, Good, CellOk, Reconciled;
    if (t, terminal) !in s.drained || t !in s.tasks || s.tasks[t].status != Running
        || s.tasks[t].pending != Some(terminal) {
      StandsStill(s, Reconcile(s, t, terminal));
    } else {
      Known(s, t);
      DrainedStays(s, t, terminal);
      ReconciledEdit(s.tasks[t], terminal, s.next);
      TierStepOk(s, t, Reconciled(s.tasks[t], terminal), s.next);
    }
  }

  lemma StopOk(s: State, t: TaskId, reason: Reason)
    requires Inv(s)
    ensures Good(s, Stop(s, t, reason))
  {
    hide Inv, TierEdit, TierStep, Good, CellOk, Stopped;
    if t !in s.tasks || s.tasks[t].status !in {Queued, Running} {
      StandsStill(s, Stop(s, t, reason));
    } else {
      Known(s, t);
      StoppedEdit(s.tasks[t], reason, s.next);
      TierStepOk(s, t, Stopped(s.tasks[t], reason), s.next);
    }
  }

  lemma PersistFactOk(s: State, t: TaskId, rid: RoundId, iid: Instance, epoch: nat, author: Speaker)
    requires Inv(s)
    ensures Good(s, PersistFact(s, t, rid, iid, epoch, author))
  {
    hide Inv, CellOk, CellStep, QuietStep, Emit, Evolves;
    if t !in s.tasks || !LastUnder(s.tasks[t].rounds, rid, Some(iid), epoch) {
      StandsStill(s, PersistFact(s, t, rid, iid, epoch, author));
    } else {
      Known(s, t);
      SaidOk(s.tasks[t], MessageSaved(s.next, author, Some(rid)), s.next);
      QuietStepOk(s, t, Say(s.tasks[t], MessageSaved(s.next, author, Some(rid))), s.next + 1);
    }
  }

  lemma SendOk(s: State, owner: UserId, t: TaskId, textOk: bool)
    requires Inv(s)
    ensures Good(s, Send(s, owner, t, textOk))
  {
    hide Inv, CellOk, CellStep, QuietStep, Emit, Evolves;
    if !Visible(s, owner, t) || HasOpen(s.tasks[t].rounds) || s.tasks[t].status != Ready || !textOk {
      StandsStill(s, Send(s, owner, t, textOk));
    } else {
      Known(s, t);
      SentOk(s.tasks[t], s.next);
      QuietStepOk(s, t, Sent(s.tasks[t], s.next, s.next + 1), s.next + 2);
    }
  }

  lemma UploadOk(s: State, owner: UserId, t: TaskId, uploads: seq<Upload>)
    requires Inv(s)
    ensures Good(s, UploadFiles(s, owner, t, uploads))
  {
    hide Inv, CellOk, CellStep, QuietStep, Stage, BatchNamesOk, BatchWithinLimits, ValidName, Evolves;
    var r := UploadFiles(s, owner, t, uploads);
    if r.outcome != Done {
      StandsStill(s, r);
    } else {
      Known(s, t);
      StagedOk(s.tasks[t], uploads, s.next);
      QuietStepOk(s, t, s.tasks[t].(files := Stage(s.tasks[t].files, uploads, s.next)), s.next + |uploads|);
    }
  }

  lemma DeleteFileOk(s: State, owner: UserId, t: TaskId, f: FileId)
    requires Inv(s)
    ensures Good(s, DeleteFile(s, owner, t, f))
  {
    hide Inv, CellOk, CellStep, QuietStep, Evolves;
    var r := DeleteFile(s, owner, t, f);
    if r.outcome != Done {
      StandsStill(s, r);
    } else {
      Known(s, t);
      var c := s.tasks[t];
      var i := Find(c.files, StagedInput(f), 0);
      UnstagedOk(c, i, s.next);
      QuietStepOk(s, t, c.(files := c.files[i := c.files[i].(state := Tombstone)]), s.next);
    }
  }
}
