/** One task at a time: no transaction touches another task, and a user's
    request to end a running task is never lost. */
module Intent {
  import opened TaskTypes
  import opened Rounds
  import opened Protocol
  import opened Invariant
  import opened Steps
  import opened Runs
  import opened History

  predicate Targets(a: Action, t: TaskId) {
    match a
    case ACreate(_, _, _, _, _) => false
    case ARevokeProvider(_, _) => false
    case ADeleteAccount(_) => false
    case ASetQuota(_, _) => false
    case _ => a.task == t
  }

  predicate Untouched(s: State, s': State, t: TaskId)
    requires t in s.tasks
  {
    t in s'.tasks ==> s'.tasks[t] == s.tasks[t]
  }

  predicate UserStep(a: Action) {
    a.ACreate? || a.AUpload? || a.ADeleteFile? || a.ACommit? || a.ASend? || a.AAbort? || a.AComplete? || a.ADelete?
  }

  predicate SweepStep(a: Action) {
    a.AClaim? || a.AReclaim? || a.ACancelRound? || a.ASweepUpload? || a.AListEnded? || a.ASweepEnded?
  }

  lemma UserElsewhere(s: State, a: Action, t: TaskId)
    requires t in s.tasks && t < s.next && UserStep(a) && !Targets(a, t)
    ensures Untouched(s, Apply(s, a).state, t)
  {
    hide GiveTier, NewCell, CommittedCell, Sent, Cancelling, Closed, Turn, Move, HasOpen, BooksOf;
    hide Claim, Reclaim, CancelRound, SweepUpload, ListEnded, SweepEnded, PersistFact, Settle, FailDeadline,
      ListDrained, Reconcile, Stop, RegisterOutput, RevokeProvider, DeleteAccount, SetQuota;
  }

  lemma SweepElsewhere(s: State, a: Action, t: TaskId)
    requires t in s.tasks && SweepStep(a) && !Targets(a, t)
    ensures Untouched(s, Apply(s, a).state, t)
  {
    hide Give, Claimed, Reclaimed, Collected, Turn, Swept, BooksOf;
    hide Create, UploadFiles, DeleteFile, Commit, Send, Finish, Delete, PersistFact, Settle, FailDeadline,
      ListDrained, Reconcile, Stop, RegisterOutput, RevokeProvider, DeleteAccount, SetQuota;
  }

  lemma ExecutorElsewhere(s: State, a: Action, t: TaskId)
    requires t in s.tasks && !UserStep(a) && !SweepStep(a) && !a.ARevokeProvider? && !Targets(a, t)
    ensures Untouched(s, Apply(s, a).state, t)
  {
    hide Give, Say, Settled, RoundLostCell, Reconciled, Stopped, Registering, BooksOf, Replaced, HasOpen;
    hide Create, UploadFiles, DeleteFile, Commit, Send, Finish, Delete, Claim, Reclaim, CancelRound, SweepUpload,
      ListEnded, SweepEnded, RevokeProvider;
  }

  /** Only the unstarted tasks of the provider are touched by its revocation. */
  lemma {:induction false} RevokeElsewhere(s: State, owner: UserId, p: ProviderId, n: nat, t: TaskId)
    requires t in s.tasks && !Unstarted(s.tasks[t], owner, p)
    ensures t in RevokeBelow(s, owner, p, n).tasks && RevokeBelow(s, owner, p, n).tasks[t] == s.tasks[t]
  {
    hide RevokedCell;
    if n == 0 {
    } else {
      RevokeElsewhere(s, owner, p, n - 1, t);
    }
  }

  /** Isolation: a transaction leaves every task alone that it does not name,
      a revocation every task that is not an unstarted one of the provider. */
  lemma Elsewhere(s: State, a: Action, t: TaskId)
    requires Inv(s) && t in s.tasks && !Targets(a, t)
    requires a.ARevokeProvider? ==> !Unstarted(s.tasks[t], a.owner, a.provider)
    ensures Untouched(s, Apply(s, a).state, t)
  {
    hide Inv, Untouched, Apply;
    Known(s, t);
    if UserStep(a) {
      UserElsewhere(s, a, t);
    } else if SweepStep(a) {
      SweepElsewhere(s, a, t);
    } else if a.ARevokeProvider? {
      RevocationElsewhere(s, a, t);
    } else {
      ExecutorElsewhere(s, a, t);
    }
  }

  lemma RevocationElsewhere(s: State, a: Action, t: TaskId)
    requires t in s.tasks && a.ARevokeProvider? && !Unstarted(s.tasks[t], a.owner, a.provider)
    ensures Untouched(s, Apply(s, a).state, t)
  {
    hide RevokeBelow;
    RevokeElsewhere(s, a.owner, a.provider, s.next, t);
  }

  // What can become of a running task.

  /** What the row of a task says that ended as was asked. */
  predicate EndsAs(p: Terminal, status: Status, reason: Option<Reason>) {
    match p
    case ToAborted => status == Aborted && reason == Some(UserCancel)
    case ToCompleted => status == Completed && reason == None
    case ToDeleted => status == Deleted
  }

  /** The task after one step, as far as its status and intent go. */
  predicate RunningNext(c: Cell, c': Cell, a: Action) {
    match a
    case AAbort(_, _) => HasOpen(c.rounds) && c'.status == Running && c'.pending == Some(ToAborted)
    case AComplete(_, _) => HasOpen(c.rounds) && c'.status == Running && c'.pending == Some(ToCompleted)
    case ADelete(_, _) => c'.status == Deleted
    case AReclaim(_, _, _, _) => c.pending == None && c'.status in {Queued, Failed}
    case ACancelRound(_, _) => c'.status == Running && c'.pending == c.pending
    case APersistFact(_, _, _, _, _) => c.pending == None && c'.status == Running && c'.pending == None
    case ARegisterOutput(_, _, _, _, _, _) => c.pending == None && c'.status == Running && c'.pending == None
    case ASettle(_, _, _, _, _, _) => c.pending == None && c'.status in {Ready, Aborted}
    case AFailDeadline(_, _, _, _) => c.pending == None && c'.status == Failed
    case AReconcile(_, p) => c.pending == Some(p) && EndsAs(p, c'.status, c'.reason)
    case AKill(_) => c'.status == Aborted && c'.pending == None
    case ASuspend(_) => c'.status == Aborted && c'.pending == None
    case _ => false
  }

  /** The coupling that makes the executor's writes safe. */
  predicate Coupled(c: Cell) {
    && (HasOpen(c.rounds) && Last(c).state == RRunning ==> c.status == Running && c.pending == None)
    && (HasOpen(c.rounds) && Last(c).state == RPending ==> c.status == Queued)
  }

  lemma CoupledKnown(s: State, t: TaskId)
    requires Inv(s) && t in s.tasks
    ensures Coupled(s.tasks[t])
  {
    hide Inv, RowOk, HoldsOk, Occupies, Backed;
    Parts(s, t);
  }

  lemma RunningUser(s: State, a: Action, t: TaskId)
    requires t in s.tasks && t in Apply(s, a).state.tasks && s.tasks[t].status == Running && Coupled(s.tasks[t])
    requires UserStep(a) && Targets(a, t) && Apply(s, a).state.tasks[t] != s.tasks[t]
    ensures RunningNext(s.tasks[t], Apply(s, a).state.tasks[t], a)
  {
    hide HeldIf, FreeSlots, CommittedCell;
    hide Claim, Reclaim, CancelRound, SweepUpload, ListEnded, SweepEnded, PersistFact, Settle, FailDeadline,
      ListDrained, Reconcile, Stop, RegisterOutput, RevokeProvider, DeleteAccount, SetQuota;
  }

  lemma RunningSweep(s: State, a: Action, t: TaskId)
    requires t in s.tasks && t in Apply(s, a).state.tasks && s.tasks[t].status == Running && Coupled(s.tasks[t])
    requires t !in s.ended
    requires SweepStep(a) && Targets(a, t) && Apply(s, a).state.tasks[t] != s.tasks[t]
    ensures RunningNext(s.tasks[t], Apply(s, a).state.tasks[t], a)
  {
    hide BooksOf, HeldIf, FreeSlots, Claimed, Swept;
    hide Create, UploadFiles, DeleteFile, Commit, Send, Finish, Delete, PersistFact, Settle, FailDeadline,
      ListDrained, Reconcile, Stop, RegisterOutput, RevokeProvider, DeleteAccount, SetQuota;
  }

  lemma RunningArtifact(s: State, a: Action, t: TaskId)
    requires t in s.tasks && t in Apply(s, a).state.tasks && s.tasks[t].status == Running && Coupled(s.tasks[t])
    requires a.ARegisterOutput? && Targets(a, t) && Apply(s, a).state.tasks[t] != s.tasks[t]
    ensures RunningNext(s.tasks[t], Apply(s, a).state.tasks[t], a)
  {
    hide Replaced;
    hide Create, UploadFiles, DeleteFile, Commit, Send, Finish, Delete, Claim, Reclaim, CancelRound, SweepUpload,
      ListEnded, SweepEnded, RevokeProvider, DeleteAccount, SetQuota, PersistFact, Settle, FailDeadline, Reconcile,
      Stop, ListDrained;
  }

  lemma RunningWrite(s: State, a: Action, t: TaskId)
    requires t in s.tasks && t in Apply(s, a).state.tasks && s.tasks[t].status == Running && Coupled(s.tasks[t])
    requires !a.ARegisterOutput? && !UserStep(a) && !SweepStep(a) && Targets(a, t)
    requires Apply(s, a).state.tasks[t] != s.tasks[t]
    ensures RunningNext(s.tasks[t], Apply(s, a).state.tasks[t], a)
  {
    hide HeldIf, FreeSlots, RegisterOutput;
    hide Create, UploadFiles, DeleteFile, Commit, Send, Finish, Delete, Claim, Reclaim, CancelRound, SweepUpload,
      ListEnded, SweepEnded, RevokeProvider, DeleteAccount, SetQuota;
  }

  /** All that can happen to a running task in one step: nothing, or exactly
      what the step that names it does. */
  lemma RunningSteps(s: State, a: Action, t: TaskId)
    requires Inv(s) && t in s.tasks && t in Apply(s, a).state.tasks && s.tasks[t].status == Running
    requires Apply(s, a).state.tasks[t] != s.tasks[t]
    ensures Targets(a, t) && RunningNext(s.tasks[t], Apply(s, a).state.tasks[t], a)
  {
    hide Inv, Apply, RunningNext;
    if !Targets(a, t) {
      Elsewhere(s, a, t);
    }
    CoupledKnown(s, t);
    if UserStep(a) {
      RunningUser(s, a, t);
    } else if SweepStep(a) {
      NotEnded(s, t);
      RunningSweep(s, a, t);
    } else if a.ARegisterOutput? {
      RunningArtifact(s, a, t);
    } else {
      RunningWrite(s, a, t);
    }
  }

  lemma NotEnded(s: State, t: TaskId)
    requires Inv(s) && t in s.tasks && s.tasks[t].status == Running
    ensures t !in s.ended
  {
    hide CellOk, LedgerOk, SlotsOk;
  }

  /** User intent is never lost. While a running task carries an intent, no
      settle, reclaim, claim, deadline, fact or artifact touches it; the next
      change of its status is to what the latest request asked for, or it is
      killed, suspended or deleted. */
  lemma IntentKept(s: State, a: Action, t: TaskId)
    requires Reachable(s) && t in s.tasks && s.tasks[t].status == Running && s.tasks[t].pending.Some?
    requires t in Apply(s, a).state.tasks
    ensures var c, c' := s.tasks[t], Apply(s, a).state.tasks[t];
            || (c'.status == Running && c'.pending == c.pending)
            || (c'.status == Running && ((a.AAbort? && c'.pending == Some(ToAborted))
                || (a.AComplete? && c'.pending == Some(ToCompleted))))
            || (EndsAs(c.pending.value, c'.status, c'.reason) && a == AReconcile(t, c.pending.value))
            || (c'.status == Aborted && (a == AKill(t) || a == ASuspend(t)))
            || (c'.status == Deleted && a.ADelete? && a.task == t)
    ensures a.ASettle? || a.AReclaim? || a.AClaim? || a.AFailDeadline? || a.APersistFact? || a.ARegisterOutput? ==>
              Apply(s, a).state.tasks[t] == s.tasks[t]
  {
    hide Inv, Apply;
    ReachableOk(s);
    if Apply(s, a).state.tasks[t] != s.tasks[t] {
      RunningSteps(s, a, t);
    }
  }

  /** An end was asked for: the task runs with the intent on it, or has ended
      in a way that a request, a kill or a suspension stands for. */
  predicate Asked(c: Cell) {
    && c.status in {Running, Completed, Aborted, Deleted}
    && (c.status == Running ==> c.pending.Some?)
  }

  lemma AskedStays(s: State, a: Action, t: TaskId)
    requires Reachable(s) && t in s.tasks && Asked(s.tasks[t]) && t in Apply(s, a).state.tasks
    ensures Asked(Apply(s, a).state.tasks[t])
  {
    hide Inv, Apply, RoundsMove, InputsFrozen, HasOpen;
    ReachableOk(s);
    if s.tasks[t].status == Running {
      IntentKept(s, a, t);
    } else {
      StepOk(s, a);
    }
  }

  /** No interleaving ever brings a task that was asked to end back to ready
      or to the queue, or turns it into a failure. */
  lemma {:induction false} NeverRevived(s: State, actions: seq<Action>, t: TaskId)
    requires Reachable(s) && t in s.tasks && Asked(s.tasks[t])
    ensures t < Run(s, actions).next
    ensures t in Run(s, actions).tasks ==> Asked(Run(s, actions).tasks[t])
  {
    hide Inv, Apply, Asked;
    ReachableOk(s);
    if actions == [] {
      Known(s, t);
    } else {
      var front, a := actions[..|actions| - 1], actions[|actions| - 1];
      NeverRevived(s, front, t);
      RunOk(s, front);
      var m := Run(s, front);
      StepOk(m, a);
      if t in m.tasks {
        ReachableOn(s, front);
        if t in Apply(m, a).state.tasks { AskedStays(m, a, t); }
      } else {
        GoneStays(m, a, t);
      }
    }
  }

  /** The reconciler's branch for the deleted intent is dead: a task that
      carries it is already deleted. */
  lemma NeverReconcilesDeleted(s: State, t: TaskId)
    requires Reachable(s)
    ensures Reconcile(s, t, ToDeleted) == Result(s, Dropped)
  {
    hide LedgerOk, SlotsOk, ListsOk, RowOk, HoldsOk, Backed, TierStep;
    ReachableOk(s);
  }

  // Status edges.

  /** Every status change, the system's included, is in the transition table,
      but for one edge that only a reclaim takes: a running task whose lease
      was lost goes back to the queue. */
  lemma StatusEdges(s: State, a: Action, t: TaskId)
    requires Reachable(s) && t in s.tasks && t in Apply(s, a).state.tasks
    ensures var before, after := s.tasks[t].status, Apply(s, a).state.tasks[t].status;
            after == before || after in ValidTransitions(before)
            || (before == Running && after == Queued && a.AReclaim? && a.task == t)
  {
    hide Inv, Apply, RoundsMove, InputsFrozen, HasOpen;
    ReachableOk(s);
    StepOk(s, a);
    if s.tasks[t].status == Running && Apply(s, a).state.tasks[t].status == Queued {
      RunningSteps(s, a, t);
    }
  }
}
