/** No zombies and no endless retries: the rounds and holds of every task fit
    its status, every unfinished task has a step that moves it on, and without
    new user work only boundedly many system steps can commit. */
module Progress {
  import opened TaskTypes
  import opened Holdings
  import opened Rounds
  import opened Protocol
  import opened Invariant
  import opened MassPreservation
  import opened Runs
  import opened History
  import opened Intent
  import opened Fencing
  import MapSum

  // Coupling.

  function InState(rs: seq<Round>, states: set<RoundState>): nat {
    if rs == [] then 0 else
      InState(rs[..|rs| - 1], states) + (if rs[|rs| - 1].state in states then 1 else 0)
  }

  lemma {:induction false} NoneInState(rs: seq<Round>, states: set<RoundState>)
    requires forall i | 0 <= i < |rs| :: rs[i].state !in states
    ensures InState(rs, states) == 0
  {
    if rs == [] {
    } else {
      NoneInState(rs[..|rs| - 1], states);
    }
  }

  lemma LastInState(rs: seq<Round>, states: set<RoundState>)
    requires OnlyLastOpen(rs) && forall st | st in states :: OpenState(st)
    ensures InState(rs, states) == if |rs| > 0 && rs[|rs| - 1].state in states then 1 else 0
  {
    if |rs| > 0 {
      NoneInState(rs[..|rs| - 1], states);
    }
  }

  /** The coupling of rounds, holds and status in every reachable task. The
      counts never exceed one, so none of the partial unique indexes on rounds
      and reservations can ever fire. */
  lemma Coupling(s: State, t: TaskId)
    requires Reachable(s) && t in s.tasks
    ensures var c := s.tasks[t];
            && InState(c.rounds, {RPending}) == (if c.status == Queued then 1 else 0)
            && InState(c.rounds, {RRunning}) <= (if c.status == Running && c.pending == None then 1 else 0)
            && InState(c.rounds, {RPending, RRunning, RCancelling}) <= (if c.status in {Queued, Running, Deleted}
               then 1 else 0)
            && (c.pending.Some? && c.status == Running ==> InState(c.rounds, {RPending, RRunning}) == 0)
    ensures var rs, status := s.tasks[t].reservations, s.tasks[t].status;
            && Held(rs, HoldActive) == (if status in {Uploading, Queued, Running, Ready} then 1 else 0)
            && Held(rs, HoldRunning) == (if status == Running && HasOpen(s.tasks[t].rounds) then 1 else 0)
            && Held(rs, HoldRoot) <= 1
            && (forall f: FileId :: HeldCopies(rs, f) <= 1)
  {
    hide Reachable, Inv, RowOk, Backed;
    ReachableOk(s);
    Parts(s, t);
    var c := s.tasks[t];
    hide HoldsOk;
    LastInState(c.rounds, {RPending});
    LastInState(c.rounds, {RRunning});
    LastInState(c.rounds, {RPending, RRunning});
    LastInState(c.rounds, {RPending, RRunning, RCancelling});
    HoldsCoupled(s, t);
  }

  lemma HoldsCoupled(s: State, t: TaskId)
    requires Inv(s) && t in s.tasks
    ensures var rs, status := s.tasks[t].reservations, s.tasks[t].status;
            && Held(rs, HoldActive) == (if status in {Uploading, Queued, Running, Ready} then 1 else 0)
            && Held(rs, HoldRunning) == (if status == Running && HasOpen(s.tasks[t].rounds) then 1 else 0)
            && Held(rs, HoldRoot) <= 1
            && (forall f: FileId :: HeldCopies(rs, f) <= 1)
  {
    hide Inv, RowOk, RoundsOk, HasOpen, Backed;
    Parts(s, t);
  }

  // Enabled steps.

  /** The system's next step for a task, if it has one: claim, reclaim, cancel,
      reconcile (after its listing) or the upload sweep. */
  function NextStep(s: State, t: TaskId, iid: Instance): Option<Action>
    requires t in s.tasks
  {
    var c := s.tasks[t];
    if HasOpen(c.rounds) then
      var r := Last(c);
      match r.state
      case RPending => Some(AClaim(t, r.id, iid))
      case RRunning => Some(AReclaim(t, r.id, r.leaseOwner, r.epoch))
      case _ => Some(ACancelRound(t, r.id))
    else if c.status == Running && c.pending.Some? then
      Some(if (t, c.pending.value) in s.drained then AReconcile(t, c.pending.value) else AListDrained(t))
    else if c.status == Uploading then Some(ASweepUpload(t))
    else None
  }

  predicate CanClaim(s: State, t: TaskId)
    requires t in s.tasks
  {
    && UsageOf(s, s.tasks[t].owner).running < QuotaOf(s, s.tasks[t].owner).maxRunning
    && Free in s.slots
  }

  lemma FreeIsFound(slots: seq<Slot>)
    ensures FirstFree(slots, 0) < |slots| <==> Free in slots
  {
    FirstIsFirst(slots, 0);
  }

  /** Every uploading, queued or running task has a next step, and that step
      commits: a claim exactly if the user has running quota and some slot is
      free, all the others always. */
  lemma NoZombies(s: State, t: TaskId, iid: Instance)
    requires Reachable(s) && t in s.tasks && s.tasks[t].status in {Uploading, Queued, Running}
    ensures NextStep(s, t, iid).Some?
    ensures var a := NextStep(s, t, iid).value;
            Apply(s, a).outcome == Done <==> (a.AClaim? ==> CanClaim(s, t))
  {
    hide Inv, RowOk, HoldsOk, Backed, Occupies;
    hide TierStep, Claimed, Reclaimed, Collected, Reconciled, Turn, Put;
    hide Create, UploadFiles, DeleteFile, Commit, Send, Finish, Delete, SweepEnded, ListEnded, PersistFact, Settle,
      FailDeadline, Stop, RegisterOutput, RevokeProvider, DeleteAccount, SetQuota;
    ReachableOk(s);
    Parts(s, t);
    FreeIsFound(s.slots);
    TierDone(s, t);
  }

  lemma TierDone(s: State, t: TaskId)
    requires t in s.tasks
    ensures forall c, next :: TierStep(s, t, c, next).outcome == Done
  {
  }

  /** A running task with no open round carries an intent, and the reconciler's
      two transactions bring it to that end. */
  lemma DrainedEnds(s: State, t: TaskId)
    requires Reachable(s) && t in s.tasks && s.tasks[t].status == Running && !HasOpen(s.tasks[t].rounds)
    ensures s.tasks[t].pending.Some?
    ensures var p := s.tasks[t].pending.value;
            var m := ListDrained(s, t).state;
            && Reconcile(m, t, p).outcome == Done
            && t in Reconcile(m, t, p).state.tasks
            && var c := Reconcile(m, t, p).state.tasks[t]; EndsAs(p, c.status, c.reason)
  {
    hide Inv, RowOk, HoldsOk, Backed, HasOpen, FreeSlots, Release;
    ReachableOk(s);
    Parts(s, t);
  }

  // The measure.

  function Work(rounds: seq<Round>, status: Status): int {
    if HasOpen(rounds) then
      var r := rounds[|rounds| - 1];
      match r.state
      case RPending => 8 - 2 * r.attempt
      case RRunning => 9 - 2 * r.attempt
      case _ => if status == Running then 2 else 1
    else if status in {Running, Uploading} then 1
    else 0
  }

  lemma WorkNonNegative(s: State, t: TaskId)
    requires Inv(s) && t in s.tasks
    ensures 0 <= Work(s.tasks[t].rounds, s.tasks[t].status)
    ensures HasOpen(s.tasks[t].rounds) && Last(s.tasks[t]).state == RRunning
        ==> 3 <= Work(s.tasks[t].rounds, s.tasks[t].status)
    ensures s.tasks[t].status == Queued ==> 4 <= Work(s.tasks[t].rounds, s.tasks[t].status)
    ensures s.tasks[t].status == Running ==> 1 <= Work(s.tasks[t].rounds, s.tasks[t].status)
  {
    hide Inv, RowOk, HoldsOk, Backed, Occupies;
    Parts(s, t);
  }

  function Works(tasks: map<TaskId, Cell>): map<nat, int> {
    map t | t in tasks :: Work(tasks[t].rounds, tasks[t].status)
  }

  ghost function TotalWork(s: State): int {
    MapSum.Total(Works(s.tasks))
  }

  /** The steps that bring new work. */
  predicate Adds(a: Action) {
    a.ACreate? || a.ACommit? || a.ASend?
  }

  /** The steps the system takes to move a task on. */
  predicate Drives(a: Action) {
    a.AClaim? || a.AReclaim? || a.ACancelRound? || a.ASweepUpload? || a.ASettle? || a.AFailDeadline? || a.AReconcile?
    || a.AKill? || a.ASuspend?
  }

  /** What the measure needs of the task before the step. */
  predicate Sound(c: Cell) {
    && Coupled(c)
    && 0 <= Work(c.rounds, c.status)
    && (HasOpen(c.rounds) && Last(c).state == RRunning ==> 3 <= Work(c.rounds, c.status))
    && (c.status == Queued ==> 4 <= Work(c.rounds, c.status))
    && (c.status == Running ==> 1 <= Work(c.rounds, c.status))
    && (HasOpen(c.rounds) ==> c.status in {Queued, Running, Deleted})
  }

  lemma SoundKnown(s: State, t: TaskId)
    requires Inv(s) && t in s.tasks
    ensures Sound(s.tasks[t])
  {
    hide Inv, RowOk, HoldsOk, Backed, Occupies;
    Parts(s, t);
    WorkNonNegative(s, t);
    CoupledKnown(s, t);
  }

  /** One step on one task: the measure does not rise, and a driving step that
      commits lowers it. */
  predicate WorkFalls(s: State, r: Result, a: Action, t: TaskId)
    requires t in s.tasks
  {
    && r.state.tasks.Keys == s.tasks.Keys
    && var before, after := s.tasks[t], r.state.tasks[t];
       && Work(after.rounds, after.status) <= Work(before.rounds, before.status)
       && (Drives(a) && r.outcome == Done ==> Work(after.rounds, after.status) < Work(before.rounds, before.status))
  }

  lemma TierCell(s: State, t: TaskId, c: Cell, next: nat)
    requires t in s.tasks
    ensures var s' := TierStep(s, t, c, next).state;
            s'.tasks.Keys == s.tasks.Keys && s'.tasks[t].rounds == c.rounds && s'.tasks[t].status == c.status
  {
    hide FreeSlots, Release;
  }

  lemma ClosedWork(c: Cell, cause: Option<Reason>)
    ensures Closed(c, cause).status == c.status && !HasOpen(Closed(c, cause).rounds)
  {
  }

  lemma FinishWork(s: State, o: UserId, t: TaskId, terminal: Terminal)
    requires t in s.tasks && Sound(s.tasks[t]) && terminal != ToDeleted
    ensures WorkFalls(s, Finish(s, o, t, terminal), AAbort(o, t), t)
  {
    hide TierStep, Closed;
    var c := Turn(s.tasks[t], StatusOf(terminal), ReasonFor(terminal));
    ClosedWork(c, ReasonFor(terminal));
    TierCell(s, t, c, s.next);
    TierCell(s, t, Closed(c, ReasonFor(terminal)), s.next);
  }

  lemma DeleteWork(s: State, o: UserId, t: TaskId)
    requires t in s.tasks && Sound(s.tasks[t])
    ensures WorkFalls(s, Delete(s, o, t), ADelete(o, t), t)
  {
    hide TierStep, Closed;
    var c := s.tasks[t];
    ClosedWork(Move(c, Deleted), None);
    TierCell(s, t, Closed(Move(c, Deleted), None), s.next);
    TierCell(s, t, Move(Cancelling(c, ToDeleted), Deleted), s.next);
  }

  lemma FilesWork(s: State, a: Action, t: TaskId)
    requires t in s.tasks && (a.AUpload? || a.ADeleteFile?) && Targets(a, t)
    ensures WorkFalls(s, Apply(s, a), a, t)
  {
    hide Create, Commit, Send, Finish, Delete, Claim, Reclaim, CancelRound, SweepUpload, ListEnded, SweepEnded,
      PersistFact, Settle, FailDeadline, ListDrained, Reconcile, Stop, RegisterOutput, RevokeProvider, DeleteAccount,
      SetQuota;
  }

  lemma UserWork(s: State, a: Action, t: TaskId)
    requires t in s.tasks && Sound(s.tasks[t]) && UserStep(a) && !Adds(a) && Targets(a, t)
    ensures WorkFalls(s, Apply(s, a), a, t)
  {
    hide Sound, Finish, Delete, UploadFiles, DeleteFile;
    match a
    case AAbort(o, _) => FinishWork(s, o, t, ToAborted);
    case AComplete(o, _) => FinishWork(s, o, t, ToCompleted);
    case ADelete(o, _) => DeleteWork(s, o, t);
    case _ => FilesWork(s, a, t);
  }

  lemma ClaimWork(s: State, a: Action, t: TaskId)
    requires t in s.tasks && Sound(s.tasks[t]) && a.AClaim? && Targets(a, t)
    ensures WorkFalls(s, Claim(s, t, a.rid, a.iid), a, t)
  {
    hide FirstFree;
  }

  lemma EndedWork(s: State, a: Action, t: TaskId)
    requires t in s.tasks && Sound(s.tasks[t]) && a.ASweepEnded? && Targets(a, t)
    requires t in s.ended ==> !Unfinished(s.tasks[t].status)
    ensures WorkFalls(s, SweepEnded(s, t), a, t)
  {
    hide Release, HeldIf, FreeSlots, BytesIf;
  }

  lemma ReclaimWork(s: State, a: Action, t: TaskId)
    requires t in s.tasks && Sound(s.tasks[t]) && a.AReclaim? && Targets(a, t)
    ensures WorkFalls(s, Reclaim(s, t, a.rid, a.lo, a.le), a, t)
  {
    hide TierStep;
    if LastUnder(s.tasks[t].rounds, a.rid, a.lo, a.le) {
      TierCell(s, t, Reclaimed(s.tasks[t]), s.next);
    }
  }

  lemma CancelWork(s: State, a: Action, t: TaskId)
    requires t in s.tasks && Sound(s.tasks[t]) && a.ACancelRound? && Targets(a, t)
    ensures WorkFalls(s, CancelRound(s, t, a.rid), a, t)
  {
    hide TierStep;
    if LastIs(s.tasks[t].rounds, a.rid, RCancelling) {
      TierCell(s, t, Collected(s.tasks[t]), s.next);
    }
  }

  lemma ExpireWork(s: State, a: Action, t: TaskId)
    requires t in s.tasks && Sound(s.tasks[t]) && a.ASweepUpload? && Targets(a, t)
    ensures WorkFalls(s, SweepUpload(s, t), a, t)
  {
    hide TierStep;
    TierCell(s, t, Turn(s.tasks[t], Failed, Some(UploadExpired)), s.next);
  }

  lemma SweepWork(s: State, a: Action, t: TaskId)
    requires t in s.tasks && Sound(s.tasks[t]) && SweepStep(a) && Targets(a, t)
    requires t in s.ended ==> !Unfinished(s.tasks[t].status)
    ensures WorkFalls(s, Apply(s, a), a, t)
  {
    hide Claim, Reclaim, CancelRound, SweepUpload, SweepEnded, Sound, Work;
    match a
    case AClaim(_, _, _) => ClaimWork(s, a, t);
    case AReclaim(_, _, _, _) => ReclaimWork(s, a, t);
    case ACancelRound(_, _) => CancelWork(s, a, t);
    case ASweepUpload(_) => ExpireWork(s, a, t);
    case ASweepEnded(_) => EndedWork(s, a, t);
    case AListEnded(_) =>
  }

  lemma SettledWork(c: Cell, mid: MessageId, tail: bool, revoked: bool)
    requires HasOpen(c.rounds)
    ensures Work(Settled(c, mid, tail, revoked).rounds, Settled(c, mid, tail, revoked).status) == 0
  {
  }

  lemma StoppedWork(c: Cell, reason: Reason)
    ensures Work(Stopped(c, reason).rounds, Stopped(c, reason).status) == 0
  {
  }

  lemma StopWork(s: State, t: TaskId, reason: Reason)
    requires t in s.tasks && Sound(s.tasks[t])
    ensures WorkFalls(s, Stop(s, t, reason), AKill(t), t)
  {
    hide TierStep, Stopped;
    StoppedWork(s.tasks[t], reason);
    TierCell(s, t, Stopped(s.tasks[t], reason), s.next);
  }

  lemma SettleWork(s: State, a: Action, t: TaskId)
    requires t in s.tasks && Sound(s.tasks[t]) && a.ASettle? && Targets(a, t)
    ensures WorkFalls(s, Settle(s, t, a.rid, a.iid, a.epoch, a.tail, a.revoked), a, t)
  {
    hide TierStep, Settled;
    if LastUnder(s.tasks[t].rounds, a.rid, Some(a.iid), a.epoch) {
      SettledWork(s.tasks[t], s.next, a.tail, a.revoked);
      TierCell(s, t, Settled(s.tasks[t], s.next, a.tail, a.revoked), s.next + if a.tail then 1 else 0);
    }
  }

  lemma DeadlineWork(s: State, a: Action, t: TaskId)
    requires t in s.tasks && Sound(s.tasks[t]) && a.AFailDeadline? && Targets(a, t)
    ensures WorkFalls(s, FailDeadline(s, t, a.rid, a.iid, a.epoch), a, t)
  {
    hide TierStep;
    if LastUnder(s.tasks[t].rounds, a.rid, Some(a.iid), a.epoch) {
      TierCell(s, t, RoundLostCell(s.tasks[t]), s.next);
    }
  }

  lemma ReconcileWork(s: State, a: Action, t: TaskId)
    requires t in s.tasks && Sound(s.tasks[t]) && a.AReconcile? && Targets(a, t)
    ensures WorkFalls(s, Reconcile(s, t, a.terminal), a, t)
  {
    hide TierStep;
    TierCell(s, t, Reconciled(s.tasks[t], a.terminal), s.next);
  }

  lemma RegisterWork(s: State, a: Action, t: TaskId)
    requires t in s.tasks && a.ARegisterOutput? && Targets(a, t)
    ensures WorkFalls(s, RegisterOutput(s, a.owner, t, a.rid, a.epoch, a.name, a.size), a, t)
  {
    hide Release, Replaced;
  }

  lemma WriteWork(s: State, a: Action, t: TaskId)
    requires t in s.tasks && Sound(s.tasks[t]) && !UserStep(a) && !SweepStep(a) && Targets(a, t)
    ensures WorkFalls(s, Apply(s, a), a, t)
  {
    hide Release, HeldIf, FreeSlots, BytesIf;
    hide Create, UploadFiles, DeleteFile, Commit, Send, Finish, Delete, Claim, Reclaim, CancelRound, SweepUpload,
      ListEnded, SweepEnded, RevokeProvider, DeleteAccount, SetQuota, Stop, Settle, RegisterOutput, FailDeadline,
      Reconcile;
    match a
    case AKill(_) => StopWork(s, t, ToolRevoked);
    case ASuspend(_) => StopWork(s, t, AdminSuspended);
    case ASettle(_, _, _, _, _, _) => SettleWork(s, a, t);
    case AFailDeadline(_, _, _, _) => DeadlineWork(s, a, t);
    case AReconcile(_, _) => ReconcileWork(s, a, t);
    case ARegisterOutput(_, _, _, _, _, _) => RegisterWork(s, a, t);
    case _ =>
  }

  lemma TargetWork(s: State, a: Action, t: TaskId)
    requires Inv(s) && t in s.tasks && !Adds(a) && Targets(a, t)
    ensures WorkFalls(s, Apply(s, a), a, t)
  {
    hide Inv, Apply, WorkFalls, Sound;
    SoundKnown(s, t);
    if UserStep(a) {
      UserWork(s, a, t);
    } else if SweepStep(a) {
      EndedKnown(s, t);
      SweepWork(s, a, t);
    } else {
      WriteWork(s, a, t);
    }
  }

  lemma EndedKnown(s: State, t: TaskId)
    requires Inv(s) && t in s.tasks
    ensures t in s.ended ==> !Unfinished(s.tasks[t].status)
  {
    hide CellOk, LedgerOk, SlotsOk;
  }

  /** A transaction that names a task which is not there does nothing. */
  lemma NoTask(s: State, a: Action, t: TaskId)
    requires t !in s.tasks && Targets(a, t)
    ensures Apply(s, a).state == s && Apply(s, a).outcome != Done
  {
    hide TierStep, QuietStep, Put, NewCell, CommittedCell;
  }

  lemma WorksKnown(s: State)
    requires Inv(s)
    ensures forall t | t in Works(s.tasks) :: 0 <= Works(s.tasks)[t]
  {
    hide Inv, Work;
    forall t | t in s.tasks ensures 0 <= Work(s.tasks[t].rounds, s.tasks[t].status) {
      WorkNonNegative(s, t);
    }
  }

  lemma {:induction false} RevokeWork(s: State, owner: UserId, p: ProviderId, n: nat)
    requires Inv(s)
    ensures RevokeBelow(s, owner, p, n).tasks.Keys == s.tasks.Keys
    ensures forall t | t in s.tasks :: var c, c' := s.tasks[t], RevokeBelow(s, owner, p, n).tasks[t];
              c' == c || Work(c'.rounds, c'.status) == 0
  {
    hide Inv, RevokedCell, Work, Evolves;
    if n == 0 {
    } else {
      RevokeWork(s, owner, p, n - 1);
      RevokeBelowOk(s, owner, p, n - 1);
      var m := RevokeBelow(s, owner, p, n - 1);
      if n - 1 in m.tasks { RevokedWork(m.tasks[n - 1]); }
    }
  }

  lemma RevokedWork(c: Cell)
    ensures Work(RevokedCell(c).rounds, RevokedCell(c).status) == 0
  {
    hide Release;
  }

  lemma TotalOnTask(s: State, a: Action, t: TaskId)
    requires Inv(s) && !Adds(a) && Targets(a, t)
    ensures TotalWork(Apply(s, a).state) <= TotalWork(s)
    ensures Drives(a) && Apply(s, a).outcome == Done ==> TotalWork(Apply(s, a).state) < TotalWork(s)
  {
    hide Inv, Apply, Work;
    if t !in s.tasks {
      NoTask(s, a, t);
    } else {
      var s' := Apply(s, a).state;
      TargetWork(s, a, t);
      forall x | x in s.tasks && x != t ensures s'.tasks[x] == s.tasks[x] {
        Elsewhere(s, a, x);
      }
      var w := Work(s'.tasks[t].rounds, s'.tasks[t].status);
      assert Works(s'.tasks) == Works(s.tasks)[t := w];
      MapSum.TotalPut(Works(s.tasks), t, w);
    }
  }

  lemma RevocationTotal(s: State, a: Action)
    requires Inv(s) && a.ARevokeProvider?
    ensures TotalWork(Apply(s, a).state) <= TotalWork(s)
  {
    hide Inv, RevokeBelow, Work;
    WorksKnown(s);
    RevokeWork(s, a.owner, a.provider, s.next);
    MapSum.TotalWithin(Works(Apply(s, a).state.tasks), Works(s.tasks));
  }

  lemma DeletionTotal(s: State, a: Action)
    requires Inv(s) && (a.ADeleteAccount? || a.ASetQuota?)
    ensures TotalWork(Apply(s, a).state) <= TotalWork(s)
  {
    hide Inv, Work, EvictSlots, Create, UploadFiles, DeleteFile, Commit, Send, Finish, Delete, Claim, Reclaim,
      CancelRound, SweepUpload, ListEnded, SweepEnded, PersistFact, Settle, FailDeadline, ListDrained, Reconcile,
      Stop, RegisterOutput, RevokeProvider;
    WorksKnown(s);
    MapSum.TotalWithin(Works(Apply(s, a).state.tasks), Works(s.tasks));
  }

  /** The measure of the whole database: only a creation, a commit and a
      message raise it, and every committed driving step lowers it. */
  lemma TotalFalls(s: State, a: Action)
    requires Inv(s) && !Adds(a)
    ensures TotalWork(Apply(s, a).state) <= TotalWork(s)
    ensures Drives(a) && Apply(s, a).outcome == Done ==> TotalWork(Apply(s, a).state) < TotalWork(s)
  {
    hide Inv, Apply, TotalWork;
    if a.ARevokeProvider? {
      RevocationTotal(s, a);
    } else if a.ADeleteAccount? || a.ASetQuota? {
      DeletionTotal(s, a);
    } else {
      TotalOnTask(s, a, a.task);
    }
  }

  /** How many driving steps of a run commit. */
  function Driven(s: State, actions: seq<Action>): nat {
    if actions == [] then 0 else
      var front, a := actions[..|actions| - 1], actions[|actions| - 1];
      Driven(s, front) + (if Drives(a) && Apply(Run(s, front), a).outcome == Done then 1 else 0)
  }

  /** Termination: however claims, reclaims, cancellations, settles, deadlines,
      sweeps and kills interleave, without new user work no more of them commit
      than the measure allows. */
  lemma {:induction false} WorkRunsOut(s: State, actions: seq<Action>)
    requires Reachable(s) && forall a | a in actions :: !Adds(a)
    ensures Driven(s, actions) <= TotalWork(s) - TotalWork(Run(s, actions))
    ensures Driven(s, actions) <= TotalWork(s)
  {
    hide Inv, Apply, TotalWork;
    ReachableOk(s);
    if actions != [] {
      var front := actions[..|actions| - 1];
      WorkRunsOut(s, front);
      RunOk(s, front);
      TotalFalls(Run(s, front), actions[|actions| - 1]);
    }
    RunOk(s, actions);
    TotalNonNegative(Run(s, actions));
  }

  lemma TotalNonNegative(s: State)
    requires Inv(s)
    ensures 0 <= TotalWork(s)
  {
    hide Inv;
    WorksKnown(s);
    MapSum.TotalNonNegative(Works(s.tasks));
  }

  // Claims.

  /** How many claims of one round commit in a run. */
  function Claims(s: State, actions: seq<Action>, t: TaskId, rid: RoundId): nat {
    if actions == [] then 0 else
      var front, a := actions[..|actions| - 1], actions[|actions| - 1];
      Claims(s, front, t, rid)
        + (if a.AClaim? && a.task == t && a.rid == rid && Claim(Run(s, front), t, rid, a.iid).outcome == Done then 1
            else 0)
  }

  lemma OneMoreClaim(m: State, t: TaskId, rid: RoundId, iid: Instance, k: nat)
    requires Inv(m) && Claim(m, t, rid, iid).outcome == Done
    requires k > 0 ==> Passed(m, Tag(t, rid, k))
    ensures k + 1 <= ATTEMPT_LIMIT && Passed(Claim(m, t, rid, iid).state, Tag(t, rid, k + 1))
  {
    hide Inv, Claim;
    ClaimAdvances(m, t, rid, iid);
    RoundsKnown(m, t);
    hide RoundsOk;
    PendingBelowLimit(m.tasks[t], m.next);
  }

  lemma PendingBelowLimit(c: Cell, bound: nat)
    requires RoundsOk(c.rounds, c.status, c.pending, bound) && |c.rounds| > 0 && Last(c).state == RPending
    ensures Last(c).epoch < ATTEMPT_LIMIT
  {
  }

  lemma {:induction false} ClaimsCounted(s: State, actions: seq<Action>, t: TaskId, rid: RoundId)
    requires Inv(s)
    ensures Claims(s, actions, t, rid) > 0 ==> Passed(Run(s, actions), Tag(t, rid, Claims(s, actions, t, rid)))
    ensures Claims(s, actions, t, rid) <= ATTEMPT_LIMIT
  {
    hide Inv, Claim, Passed, Apply;
    if actions == [] {
    } else {
      var front, a := actions[..|actions| - 1], actions[|actions| - 1];
      ClaimsCounted(s, front, t, rid);
      RunOk(s, front);
      var m, k := Run(s, front), Claims(s, front, t, rid);
      if k > 0 { PassedStays(m, a, Tag(t, rid, k)); }
      if a.AClaim? && a.task == t && a.rid == rid && Claim(m, t, rid, a.iid).outcome == Done {
        OneMoreClaim(m, t, rid, a.iid, k);
        ClaimIsAction(m, t, rid, a.iid);
      }
    }
  }

  lemma ClaimIsAction(s: State, t: TaskId, rid: RoundId, iid: Instance)
    ensures Apply(s, AClaim(t, rid, iid)) == Claim(s, t, rid, iid)
  {
    hide Claim;
  }

  /** No round is claimed more than three times, in any run from any reachable
      state; its attempt and its epoch count those claims together. */
  lemma AtMostThreeClaims(s: State, actions: seq<Action>, t: TaskId, rid: RoundId)
    requires Reachable(s)
    ensures Claims(s, actions, t, rid) <= 3
    ensures var s' := Run(s, actions);
            t in s'.tasks ==> forall r | r in s'.tasks[t].rounds :: r.epoch == r.attempt <= 3
  {
    hide Reachable, Inv, Run, Claims, HasOpen;
    ReachableOk(s);
    ClaimsCounted(s, actions, t, rid);
    RunOk(s, actions);
    var s' := Run(s, actions);
    if t in s'.tasks { RoundsKnown(s', t); }
  }

  /** Settled, failed and cancelled rounds never change state again. */
  lemma RoundEndsAbsorb(s: State, a: Action, t: TaskId, i: nat)
    requires Reachable(s) && t in s.tasks && t in Apply(s, a).state.tasks && i < |s.tasks[t].rounds|
    requires s.tasks[t].rounds[i].state in {RSettled, RFailed, RCancelled}
    ensures var rs, rs' := s.tasks[t].rounds, Apply(s, a).state.tasks[t].rounds;
            rs' == [] || (i < |rs'| && rs'[i].id == rs[i].id && rs'[i].state == rs[i].state)
  {
    hide Inv, Apply, InputsFrozen, HasOpen, Edge;
    ReachableOk(s);
    StepOk(s, a);
  }
}
