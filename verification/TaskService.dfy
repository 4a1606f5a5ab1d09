/** The user's transactions on a task that is locked, statement by statement. */
module TaskService {
  import opened TaskTypes
  import opened Holdings
  import opened EventLog
  import opened FileRules
  import opened Rounds
  import opened Protocol
  import Effects
  import opened Invariant
  import opened Ledgers
  import opened Sessions
  import opened TaskRelease

  /** assert_transition. */
  predicate MayMove(from: Status, to: Status) {
    to in ValidTransitions(from)
  }

  lemma Tidy(c: Cell, bound: nat)
    requires CellOk(c, bound)
    ensures Orderly(c) && BytesOnFiles(c.reservations)
    ensures forall i | 0 <= i < |c.rounds| :: c.rounds[i].source < bound
    ensures c.status in {Uploading, Ready, Completed, Failed, Aborted} ==> !HasOpen(c.rounds)
    ensures c.status == Uploading ==> c.rounds == [] && Held(c.reservations, HoldRoot) == 0 && c.initial.Some?
    ensures c.status == Uploading ==> FilesOk(c.files, false, bound)
  {
    hide LogOk, Backed, FilesOk;
  }

  lemma InputTotal(files: seq<File>, bound: nat)
    requires FilesOk(files, false, bound)
    ensures CommittedInputBytes(CommitStaged(files)) == LiveSize(files, Input)
  {
    CommitOk(files, bound);
    SameSizes(files, CommitStaged(files));
  }

  /** commit_input: freeze the files, charge them, queue the first round. */
  method CommitInput(db: Session) returns (out: Outcome)
    requires CellOk(db.row, db.next)
    modifies db
    ensures out == var c, n := old(db.row), LiveSize(old(db.row).files, Input);
                   if c.status != Uploading then FrozenOutcome(c)
                   else if old(db.usage).storage + n > db.quota.maxStorage || old(db.platform) + n > db.platformMax
                       then StorageExceeded
                   else Done
    ensures out == Done ==>
      var n := LiveSize(old(db.row).files, Input);
      && old(db.row).initial.Some?
      && db.Rows() == Books(CommittedCell(old(db.row), old(db.next)),
         old(db.usage).(storage := old(db.usage).storage + n),
                            old(db.platform) + n, old(db.slots))
      && db.next == old(db.next) + 1 && db.alarms == old(db.alarms)
    ensures out == Done ==>
      db.row.rounds == old(db.row).rounds + [Round(old(db.next), old(db.row).initial.value, RPending, None, 0, 0)]
  {
    hide CellOk, CommitStaged, CommittedInputBytes, LiveSize, Held, HeldCopies, Emit, Orderly, FilesOk;
    Tidy(db.row, db.next);
    if db.row.status != Uploading {
      if db.row.committed || db.row.status in {Queued, Running, Ready} { return InputCommitted; }
      return InvalidTransition;
    }
    InputTotal(db.row.files, db.next);
    db.row := db.row.(committed := true);
    db.row := db.row.(files := CommitStaged(db.row.files));
    var total := CommittedInputBytes(db.row.files);
    db.AddReservation(Reservation(HoldRoot, None, total, true));
    var charged := db.ChargeStorage(total);
    if !charged { return StorageExceeded; }
    if db.row.initial == None { return InvalidTransition; }
    var rid := db.NewId();
    db.AddRound(NewRound(rid, db.row.initial.value));
    var rowcount := db.FlipStatus({Uploading}, Queued);
    if rowcount == 0 { return InvalidTransition; }
    db.AnnounceTwo(StatusChanged(Queued, None), RoundQueued(rid, None));
    return Done;
  }

  /** _request_terminal_while_running: only an intent; the task keeps running
      until its round is collected. */
  method RequestTerminalWhileRunning(db: Session, terminal: Terminal) returns (out: Outcome)
    requires Orderly(db.row) && db.row.status == Running
    modifies db
    ensures out == if HasOpen(old(db.row).rounds) then Requested else Unchanged
    ensures db.Rows() == if out == Requested then old(db.Rows()).(cell := Cancelling(old(db.row), terminal))
        else old(db.Rows())
    ensures db.next == old(db.next) && db.alarms == old(db.alarms)
  {
    hide Updated, UpdateWhere, Held;
    OnlyNewest(db.row.rounds, InTask(ACTIVE_ROUND_STATES), To(RCancelling));
    hide OnlyLastOpen, IdsDistinct;
    var cancelled := db.UpdateRounds(InTask(ACTIVE_ROUND_STATES), To(RCancelling));
    if |cancelled| == 0 { return Unchanged; }
    var intent := db.SetIntent(terminal);
    if intent == 0 { return Unchanged; }
    return Requested;
  }

  /** _terminalize_queued. */
  method TerminalizeQueued(db: Session, terminal: Status, why: Option<Reason>) returns (out: Outcome)
    requires Orderly(db.row) && db.row.status == Queued && terminal in {Completed, Aborted}
    requires Funded(db.Rows()) && BytesOnFiles(db.row.reservations)
    modifies db
    ensures out == Done
    ensures db.Rows() == GiveTier(db.task, old(db.Rows()).(cell := Closed(Turn(old(db.row), terminal, why), why)))
    ensures db.next == old(db.next) && db.alarms == old(db.alarms)
  {
    hide Held, HeldBytes, GiveTier, Updated, UpdateWhere, Emit;
    OnlyNewest(db.row.rounds, InTask({RPending}), To(RCancelled));
    hide OnlyLastOpen, IdsDistinct;
    var cancelled := db.UpdateRounds(InTask({RPending}), To(RCancelled));
    if !MayMove(Queued, terminal) { return InvalidTransition; }
    var rowcount := db.EndTask({Queued}, terminal, why);
    if rowcount == 0 { return InvalidTransition; }
    db.AnnounceWith(StatusChanged(terminal, why), if |cancelled| > 0 then Some(RoundCancelled(None, why)) else None);
    ReleaseTaskHoldings(db);
    return Done;
  }

  /** _finalize_terminal. */
  method FinalizeTerminal(db: Session, terminal: Status, why: Option<Reason>) returns (out: Outcome)
    requires Funded(db.Rows()) && BytesOnFiles(db.row.reservations)
    modifies db
    ensures out == if MayMove(old(db.row).status, terminal) then Done else InvalidTransition
    ensures db.Rows() == if out == Done
        then GiveTier(db.task, old(db.Rows()).(cell := Turn(old(db.row), terminal, why))) else old(db.Rows())
    ensures db.next == old(db.next) && db.alarms == old(db.alarms)
  {
    hide Held, HeldBytes, GiveTier, Emit;
    if !MayMove(db.row.status, terminal) { return InvalidTransition; }
    var rowcount := db.EndTask({db.row.status}, terminal, why);
    if rowcount == 0 { return InvalidTransition; }
    db.Announce(StatusChanged(terminal, why));
    ReleaseTaskHoldings(db);
    return Done;
  }

  /** abort_task and complete_task, by the status found under the lock. */
  method FinishTask(db: Session, terminal: Terminal) returns (out: Outcome)
    requires CellOk(db.row, db.next) && Funded(db.Rows()) && terminal != ToDeleted && db.row.status != Deleted
    modifies db
    ensures out == match old(db.row).status
                   case Running => if HasOpen(old(db.row).rounds) then Requested else Unchanged
                   case Queued => Done
                   case Ready => Done
                   case _ => InvalidTransition
    ensures out == Requested ==> db.Rows() == old(db.Rows()).(cell := Cancelling(old(db.row), terminal))
    ensures out == Done ==>
      var turned := Turn(old(db.row), StatusOf(terminal), ReasonFor(terminal));
      db.Rows() == GiveTier(db.task, old(db.Rows()).(cell :=
        if old(db.row).status == Queued then Closed(turned, ReasonFor(terminal)) else turned))
    ensures out == Done ==>
      && db.row.status == (if terminal == ToAborted then Aborted else Completed)
      && db.row.reason == (if terminal == ToAborted then Some(UserCancel) else None)
    ensures db.next == old(db.next) && db.alarms == old(db.alarms)
  {
    hide CellOk, Held, HeldBytes, GiveTier, Emit, Turn, Closed, Cancelling;
    Tidy(db.row, db.next);
    hide Orderly;
    if db.row.status == Running {
      out := RequestTerminalWhileRunning(db, terminal);
    } else if db.row.status == Queued {
      out := TerminalizeQueued(db, StatusOf(terminal), ReasonFor(terminal));
    } else {
      out := FinalizeTerminal(db, StatusOf(terminal), ReasonFor(terminal));
    }
    var status, why := if terminal == ToAborted then Aborted else Completed, if terminal
        == ToAborted then Some(UserCancel) else None;
    Effects.EndedCell(old(db.row), status, why);
    Effects.TurnedCell(old(db.row), status, why);
    TierKeeps(db.task, old(db.Rows()).(cell := if old(db.row).status == Queued
        then Closed(Turn(old(db.row), status, why), why)
                                               else Turn(old(db.row), status, why)));
  }

  /** The round of a task that is being deleted: cancelling under a running
      task, with the intent overwritten; cancelled at once if still pending. */
  method DropRound(db: Session) returns (roundCancelled: bool)
    requires Orderly(db.row) && (db.row.status in {Uploading, Ready, Completed, Failed, Aborted}
        ==> !HasOpen(db.row.rounds))
    requires db.row.status != Deleted
    modifies db`row
    ensures if old(db.row).status == Running then db.row == Cancelling(old(db.row), ToDeleted) && !roundCancelled
            else roundCancelled == HasOpen(old(db.row).rounds)
                 && db.row == if roundCancelled then SetLast(old(db.row), Last(old(db.row)).(state := RCancelled))
                    else old(db.row)
  {
    hide Held, Updated, UpdateWhere;
    if db.row.status == Running {
      OnlyNewest(db.row.rounds, InTask(ACTIVE_ROUND_STATES), To(RCancelling));
      var cancelling := db.UpdateRounds(InTask(ACTIVE_ROUND_STATES), To(RCancelling));
      var intent := db.SetIntent(ToDeleted);
      return false;
    } else if db.row.status == Queued {
      OnlyNewest(db.row.rounds, InTask({RPending}), To(RCancelled));
      var cancelled := db.UpdateRounds(InTask({RPending}), To(RCancelled));
      return |cancelled| > 0;
    }
    return false;
  }

  /** delete_task. */
  method DeleteTask(db: Session) returns (out: Outcome)
    requires CellOk(db.row, db.next) && Funded(db.Rows()) && db.row.status != Deleted
    modifies db
    ensures out == Done
    ensures db.Rows() == GiveTier(db.task, old(db.Rows()).(cell :=
              if old(db.row).status == Running then Move(Cancelling(old(db.row), ToDeleted), Deleted)
              else Closed(Move(old(db.row), Deleted), None)))
    ensures db.next == old(db.next) && db.alarms == old(db.alarms)
  {
    hide CellOk, Held, HeldBytes, GiveTier, Emit;
    Tidy(db.row, db.next);
    if !MayMove(db.row.status, Deleted) { return InvalidTransition; }
    var roundCancelled := DropRound(db);
    hide Orderly, HasOpen;
    var rowcount := db.FlipStatus({db.row.status}, Deleted);
    if rowcount == 0 { return InvalidTransition; }
    db.AnnounceWith(StatusChanged(Deleted, None), if roundCancelled then Some(RoundCancelled(None, None)) else None);
    ReleaseTaskHoldings(db);
    return Done;
  }

  /** send_message: the next user message and its round. */
  method SendMessage(db: Session, textOk: bool) returns (out: Outcome)
    requires CellOk(db.row, db.next)
    modifies db
    ensures out == if HasOpen(old(db.row).rounds) then RoundBusy
                   else if old(db.row).status != Ready then InvalidTransition
                   else if !textOk then InvalidInput else Done
    ensures out == Done ==> db.Rows() == old(db.Rows()).(cell := Sent(old(db.row), old(db.next), old(db.next) + 1))
                            && db.next == old(db.next) + 2 && db.alarms == old(db.alarms)
    ensures out == Done ==>
      && db.row.rounds == old(db.row).rounds + [Round(old(db.next) + 1, old(db.next), RPending, None, 0, 0)]
      && db.row.log.messages == old(db.row).log.messages
                                + [Message(old(db.next), old(db.row).log.sequence + 1, ByUser)]
  {
    hide CellOk, Held, HeldBytes, Updated, FilesOk, Emit, BytesOnFiles, Sent;
    Tidy(db.row, db.next);
    OnlyNewest(db.row.rounds, InTask(ACTIVE_ROUND_STATES), Touch);
    hide IdsDistinct, UpdateWhere;
    if Updated(db.row.rounds, InTask(ACTIVE_ROUND_STATES), Touch) != [] { return RoundBusy; }
    if db.row.status != Ready { return InvalidTransition; }
    if !textOk { return InvalidInput; }
    hide OnlyLastOpen, HasOpen;
    WriteMessage(db);
    Effects.SentCell(old(db.row), old(db.next), old(db.next) + 1);
    return Done;
  }

  /** The writes of send_message, once its gates are passed. */
  method WriteMessage(db: Session)
    requires db.row.status == Ready && OnlyLastOpen(db.row.rounds) && !HasOpen(db.row.rounds)
    requires forall i | 0 <= i < |db.row.rounds| :: db.row.rounds[i].source < db.next
    modifies db`row, db`next
    ensures db.row == Sent(old(db.row), old(db.next), old(db.next) + 1) && db.next == old(db.next) + 2
  {
    hide OnlyLastOpen, HasOpen, Emit;
    var mid := db.SaveMessage(ByUser, None);
    var rowcount := db.FlipStatus({Ready}, Queued);
    var rid := db.NewId();
    db.AddRound(NewRound(rid, mid));
    db.AnnounceTwo(StatusChanged(Queued, None), RoundQueued(rid, None));
  }
}
