/** Use stays within the quotas, and the counters count what they are named for. */
module Quotas {
  import opened TaskTypes
  import opened Holdings
  import opened FileRules
  import opened Protocol
  import opened Invariant
  import opened MassPreservation
  import opened Runs
  import opened Ledgers
  import MapSum

  /** A user's counters stay within the limits of a quota row. */
  predicate Fits(x: Usage, q: Quota) {
    x.active <= q.maxActive && x.running <= q.maxRunning && x.storage <= q.maxStorage
  }

  /** All four dimensions, for every user. */
  predicate WithinQuota(s: State) {
    && (forall u | u in s.usage && u in s.quota :: Fits(s.usage[u], s.quota[u]))
    && (forall k | k in s.daily :: k.0 in s.quota && s.daily[k] <= s.quota[k.0].maxDaily)
  }

  /** An administrator may set a dimension below what is already in use. */
  predicate Undercuts(s: State, a: Action) {
    a.ASetQuota? && ValidChange(a.change) &&
    var q := QuotaAfter(s, a.owner, a.change);
    (!Fits(UsageOf(s, a.owner), q) || exists k :: k in s.daily && k.0 == a.owner && q.maxDaily < s.daily[k])
  }

  /** No task counter goes up, and bytes do only within their limit. */
  predicate NoExcess(s: State, s': State) {
    && s'.quota == s.quota && s'.daily == s.daily
    && s'.usage.Keys == s.usage.Keys
    && forall u | u in s.usage ::
         && s'.usage[u].active <= s.usage[u].active && s'.usage[u].running <= s.usage[u].running
         && (s'.usage[u].storage <= s.usage[u].storage
            || (u in s.quota && s'.usage[u].storage <= s.quota[u].maxStorage))
  }

  /** ... and no gap between charges and holdings opens. */
  predicate Frugal(s: State, s': State) {
    NoExcess(s, s') && s'.unrefunded == s.unrefunded
  }

  lemma NoExcessKeeps(s: State, s': State)
    requires WithinQuota(s) && NoExcess(s, s')
    ensures WithinQuota(s')
  {
  }

  lemma TierFrugal(s: State, t: TaskId, c: Cell, next: nat)
    requires t in s.tasks && s.tasks[t].owner in s.usage
    requires OwnersFrom(s, TierStep(s, t, c, next).state)
    ensures Frugal(s, TierStep(s, t, c, next).state)
  {
  }

  lemma RevokeOneNoExcess(s: State, owner: UserId, p: ProviderId, t: TaskId)
    requires forall x | x in s.tasks :: s.tasks[x].owner in s.usage
    ensures NoExcess(s, RevokeOne(s, owner, p, t))
  {
    hide RevokedCell;
  }

  lemma OwnersKnown(s: State)
    requires Inv(s)
    ensures forall t | t in s.tasks :: s.tasks[t].owner in s.usage && s.tasks[t].owner in s.quota
  {
    hide CellOk, LedgerOk, SlotsOk, ListsOk;
  }

  lemma {:induction false} RevokeNoExcess(s: State, owner: UserId, p: ProviderId, n: nat)
    requires Inv(s)
    ensures NoExcess(s, RevokeBelow(s, owner, p, n))
  {
    hide Inv, Evolves, RevokeOne;
    if n == 0 {
    } else {
      RevokeNoExcess(s, owner, p, n - 1);
      RevokeBelowOk(s, owner, p, n - 1);
      OwnersKnown(RevokeBelow(s, owner, p, n - 1));
      RevokeOneNoExcess(RevokeBelow(s, owner, p, n - 1), owner, p, n - 1);
    }
  }

  lemma OwnersStay(s: State, a: Action)
    requires Inv(s)
    ensures forall t | t in s.tasks && t in Apply(s, a).state.tasks ::
        Apply(s, a).state.tasks[t].owner == s.tasks[t].owner
  {
    hide Inv, Apply, InputsFrozen, Edge;
    StepOk(s, a);
  }

  predicate UserEnding(a: Action) {
    a.AAbort? || a.AComplete? || a.ADelete?
  }

  predicate SystemEnding(a: Action) {
    a.AReclaim? || a.ACancelRound? || a.ASweepUpload? || a.ASettle? || a.AFailDeadline? || a.AReconcile? || a.AKill?
        || a.ASuspend?
  }

  predicate Quiet(a: Action) {
    a.AUpload? || a.ADeleteFile? || a.ASend? || a.AListEnded? || a.APersistFact? || a.AListDrained?
  }

  predicate Paying(a: Action) {
    a.ACommit? || a.ASweepEnded? || a.ARegisterOutput?
  }

  lemma UserEndingFrugal(s: State, a: Action)
    requires OwnersIn(s) && OwnersFrom(s, Apply(s, a).state) && UserEnding(a)
    ensures Frugal(s, Apply(s, a).state)
  {
    hide Frugal, TierStep, Closed, Move, Cancelling, Finish, OwnersFrom;
    match a
    case AAbort(o, t) => { FinishFrugal(s, o, t, ToAborted); }
    case AComplete(o, t) => { FinishFrugal(s, o, t, ToCompleted); }
    case ADelete(o, t) =>
      if Visible(s, o, t) {
        var c := s.tasks[t];
        TierFrugal(s, t, if c.status == Running then Move(Cancelling(c, ToDeleted), Deleted)
            else Closed(Move(c, Deleted), None), s.next);
      } else { Still(s); }
  }

  lemma SystemEndingFrugal(s: State, a: Action)
    requires OwnersIn(s) && OwnersFrom(s, Apply(s, a).state) && SystemEnding(a)
    ensures Frugal(s, Apply(s, a).state)
  {
    hide Frugal, TierStep, Reclaimed, RoundLostCell, Collected, Settled, Reconciled, Stopped, Turn, OwnersFrom, Stop;
    hide Create, UploadFiles, DeleteFile, Commit, Send, Finish, Delete, Claim, ListEnded, SweepEnded, PersistFact,
      ListDrained, RegisterOutput, RevokeProvider, DeleteAccount, SetQuota;
    if Apply(s, a).state == s {
      Still(s);
    } else {
      match a
      case AReclaim(t, r, lo, le) => { TierFrugal(s, t, Reclaimed(s.tasks[t]), s.next); }
      case ACancelRound(t, r) => { TierFrugal(s, t, Collected(s.tasks[t]), s.next); }
      case ASweepUpload(t) => { TierFrugal(s, t, Turn(s.tasks[t], Failed, Some(UploadExpired)), s.next); }
      case ASettle(t, r, i, e, tail, rev) =>
          { TierFrugal(s, t, Settled(s.tasks[t], s.next, tail, rev), s.next + if tail then 1 else 0); }
      case AFailDeadline(t, r, i, e) => { TierFrugal(s, t, RoundLostCell(s.tasks[t]), s.next); }
      case AReconcile(t, term) => { TierFrugal(s, t, Reconciled(s.tasks[t], term), s.next); }
      case AKill(t) => { StopFrugal(s, t, ToolRevoked); }
      case ASuspend(t) => { StopFrugal(s, t, AdminSuspended); }
    }
  }

  lemma StopFrugal(s: State, t: TaskId, reason: Reason)
    requires OwnersIn(s) && OwnersFrom(s, Stop(s, t, reason).state)
    ensures Frugal(s, Stop(s, t, reason).state)
  {
    hide Frugal, TierStep, Stopped, OwnersFrom;
    if t in s.tasks && s.tasks[t].status in {Queued, Running} {
      TierFrugal(s, t, Stopped(s.tasks[t], reason), s.next);
    } else {
      Still(s);
    }
  }

  predicate OwnersIn(s: State) {
    forall t | t in s.tasks :: s.tasks[t].owner in s.usage
  }

  predicate OwnersFrom(s: State, s': State) {
    forall t | t in s.tasks && t in s'.tasks :: s'.tasks[t].owner == s.tasks[t].owner
  }

  lemma Still(s: State)
    ensures Frugal(s, s)
  {
  }

  lemma FinishFrugal(s: State, o: UserId, t: TaskId, terminal: Terminal)
    requires OwnersIn(s) && terminal != ToDeleted && OwnersFrom(s, Finish(s, o, t, terminal).state)
    ensures Frugal(s, Finish(s, o, t, terminal).state)
  {
    hide TierStep, Closed, Turn, Cancelling, OwnersFrom;
    if Visible(s, o, t) && s.tasks[t].status == Queued {
      TierFrugal(s, t, Closed(Turn(s.tasks[t], StatusOf(terminal), ReasonFor(terminal)), ReasonFor(terminal)), s.next);
    } else if Visible(s, o, t) && s.tasks[t].status == Ready {
      TierFrugal(s, t, Turn(s.tasks[t], StatusOf(terminal), ReasonFor(terminal)), s.next);
    }
  }

  lemma QuietFrugal(s: State, a: Action)
    requires Quiet(a)
    ensures Frugal(s, Apply(s, a).state)
  {
    hide Create, Commit, Finish, Delete, Claim, Reclaim, CancelRound, SweepUpload, SweepEnded, Settle, FailDeadline,
      Reconcile, Stop, RegisterOutput, RevokeProvider, DeleteAccount, SetQuota;
    hide Sent, Say, Stage, LiveSize, BatchNamesOk, BatchWithinLimits;
  }

  /** A charge that the storage limit has let through. */
  lemma ChargeFrugal(s: State, t: TaskId, b: Books, next: nat)
    requires t in s.tasks && s.tasks[t].owner in s.usage && s.tasks[t].owner in s.quota
    requires OwnersFrom(s, Put(s, t, b).(next := next))
    requires b.usage == UsageOf(s, s.tasks[t].owner).(storage := b.usage.storage)
    requires b.usage.storage <= QuotaOf(s, s.tasks[t].owner).maxStorage
    ensures Frugal(s, Put(s, t, b).(next := next))
  {
  }

  lemma CommitFrugal(s: State, owner: UserId, t: TaskId)
    requires OwnersIn(s) && s.usage.Keys <= s.quota.Keys && OwnersFrom(s, Commit(s, owner, t).state)
    ensures Frugal(s, Commit(s, owner, t).state)
  {
    hide CommittedCell, LiveSize, OwnersFrom, Put, Frugal;
    if Commit(s, owner, t).outcome == Done {
      var b, n := BooksOf(s, t), LiveSize(s.tasks[t].files, Input);
      var b' := Books(CommittedCell(b.cell, s.next), b.usage.(storage := b.usage.storage + n), b.storage + n, b.slots);
      ChargeFrugal(s, t, b', s.next + 1);
    } else {
      Still(s);
    }
  }

  lemma SweepFrugal(s: State, t: TaskId)
    requires OwnersIn(s)
    ensures Frugal(s, SweepEnded(s, t).state)
  {
    hide FreeSlots, Release, Unlink;
  }

  lemma RegisterFrugal(s: State, owner: UserId, t: TaskId, rid: RoundId, epoch: nat, name: string, size: nat)
    requires OwnersIn(s) && s.usage.Keys <= s.quota.Keys
    requires OwnersFrom(s, RegisterOutput(s, owner, t, rid, epoch, name, size).state)
    ensures Frugal(s, RegisterOutput(s, owner, t, rid, epoch, name, size).state)
  {
    hide Registering, LiveTotal, Replaced, ValidName, OwnersFrom, Put, Frugal;
    if RegisterOutput(s, owner, t, rid, epoch, name, size).outcome == Done {
      var b, moved := BooksOf(s, t), size - Replaced(s.tasks[t], name);
      var b' := Books(Registering(b.cell, rid, name, size, s.next), b.usage.(storage := b.usage.storage + moved),
                      b.storage + moved, b.slots);
      ChargeFrugal(s, t, b', s.next + 1);
    } else {
      Still(s);
    }
  }

  lemma PayingFrugal(s: State, a: Action)
    requires OwnersIn(s) && s.usage.Keys <= s.quota.Keys && OwnersFrom(s, Apply(s, a).state) && Paying(a)
    ensures Frugal(s, Apply(s, a).state)
  {
    hide Frugal, OwnersFrom, OwnersIn, Commit, SweepEnded, RegisterOutput;
    match a
    case ACommit(o, t) => CommitFrugal(s, o, t);
    case ASweepEnded(t) => SweepFrugal(s, t);
    case ARegisterOutput(o, t, r, e, n, sz) => RegisterFrugal(s, o, t, r, e, n, sz);
  }

  /** Only a creation and a claim raise a task counter. */
  lemma FrugalStep(s: State, a: Action)
    requires Inv(s) && !a.ACreate? && !a.AClaim? && !a.ASetQuota? && !a.ADeleteAccount? && !a.ARevokeProvider?
    ensures Frugal(s, Apply(s, a).state)
  {
    hide Inv, Frugal, Apply;
    OwnersKnown(s);
    QuotaRowsExist(s);
    OwnersStay(s, a);
    if UserEnding(a) {
      UserEndingFrugal(s, a);
    } else if SystemEnding(a) {
      SystemEndingFrugal(s, a);
    } else if Quiet(a) {
      QuietFrugal(s, a);
    } else {
      PayingFrugal(s, a);
    }
  }

  lemma RevokedNoExcess(s: State, a: Action)
    requires Inv(s) && a.ARevokeProvider?
    ensures NoExcess(s, Apply(s, a).state)
  {
    hide Inv, NoExcess;
    RevokeNoExcess(s, a.owner, a.provider, s.next);
  }

  lemma CreateWithin(s: State, owner: UserId, provider: ProviderId, day: int, admitted: bool, toolsOn: bool)
    requires WithinQuota(s) && s.usage.Keys <= s.quota.Keys
    ensures WithinQuota(Create(s, owner, provider, day, admitted, toolsOn).state)
  {
    hide NewCell;
  }

  lemma ClaimWithin(s: State, t: TaskId, rid: RoundId, iid: Instance)
    requires WithinQuota(s) && s.usage.Keys <= s.quota.Keys && OwnersIn(s)
    requires OwnersFrom(s, Claim(s, t, rid, iid).state)
    ensures WithinQuota(Claim(s, t, rid, iid).state)
  {
    hide Claimed;
  }

  lemma StorageKnown(s: State, u: UserId)
    requires Inv(s) && u in s.usage
    ensures s.usage[u].storage == Sum(s.tasks, StorageOf(u)) + UnrefundedOf(s, u)
    ensures UnrefundedOf(s, u) <= s.usage[u].storage
  {
    hide CellOk, SlotsOk, ListsOk;
    StorageSplit(s.tasks, u, s.usage[u], UnrefundedOf(s, u));
    StorageCovers(s.tasks, u);
  }

  lemma DeletionWithin(s: State, u: UserId)
    requires Inv(s) && WithinQuota(s)
    ensures WithinQuota(DeleteAccount(s, u).state)
  {
    hide Inv;
    if u in s.usage {
      StorageKnown(s, u);
    } else {
      OwnersKnown(s);
    }
  }

  lemma SetQuotaWithin(s: State, a: Action)
    requires WithinQuota(s) && a.ASetQuota? && s.usage.Keys <= s.quota.Keys
    ensures WithinQuota(SetQuota(s, a.owner, a.change).state) <==> !Undercuts(s, a)
  {
    var s' := SetQuota(s, a.owner, a.change).state;
    if ValidChange(a.change) {
      hide QuotaAfter, ValidChange;
      assert s'.quota[a.owner] == QuotaAfter(s, a.owner, a.change);
    }
  }

  /** Use stays within all four dimensions of the quota through every step,
      except exactly when an administrator sets one below the use there is. */
  lemma QuotaKept(s: State, a: Action)
    requires Inv(s) && WithinQuota(s)
    ensures WithinQuota(Apply(s, a).state) <==> !Undercuts(s, a)
  {
    hide Inv, NoExcess, WithinQuota, Undercuts, Create, Claim, DeleteAccount;
    hide UploadFiles, DeleteFile, Commit, Send, Finish, Delete, Reclaim, CancelRound, SweepUpload, ListEnded,
      SweepEnded, PersistFact, Settle, FailDeadline, ListDrained, Reconcile, Stop, RegisterOutput, RevokeProvider,
      SetQuota;
    OwnersKnown(s);
    OwnersStay(s, a);
    QuotaRowsExist(s);
    if !a.ASetQuota? { OnlySetUndercuts(s, a); }
    match a
    case ACreate(o, p, d, ok, tools) => CreateWithin(s, o, p, d, ok, tools);
    case AClaim(t, r, i) => ClaimWithin(s, t, r, i);
    case ADeleteAccount(u) => DeletionWithin(s, u);
    case ASetQuota(u, ch) => SetQuotaWithin(s, a);
    case ARevokeProvider(o, p) =>
      RevokedNoExcess(s, a);
      NoExcessKeeps(s, Apply(s, a).state);
    case _ =>
      FrugalStep(s, a);
      NoExcessKeeps(s, Apply(s, a).state);
  }

  lemma OnlySetUndercuts(s: State, a: Action)
    requires !a.ASetQuota?
    ensures !Undercuts(s, a)
  {
  }

  ghost predicate NeverUndercut(s: State, actions: seq<Action>) {
    forall i | 0 <= i < |actions| :: !Undercuts(Run(s, actions[..i]), actions[i])
  }

  lemma {:induction false} QuotaAlongRun(s: State, actions: seq<Action>)
    requires Inv(s) && WithinQuota(s) && NeverUndercut(s, actions)
    ensures WithinQuota(Run(s, actions))
  {
    hide Inv, WithinQuota, Undercuts, Apply;
    if actions == [] {
    } else {
      var front := actions[..|actions| - 1];
      assert forall i | 0 <= i < |front| :: front[..i] == actions[..i] && front[i] == actions[i];
      QuotaAlongRun(s, front);
      RunOk(s, front);
      assert !Undercuts(Run(s, actions[..|actions| - 1]), actions[|actions| - 1]);
      QuotaKept(Run(s, front), actions[|actions| - 1]);
    }
  }

  function LiveTasksOf(s: State, u: UserId): set<TaskId> {
    set t | t in s.tasks && s.tasks[t].owner == u && Unfinished(s.tasks[t].status)
  }

  function ExecutingOf(s: State, u: UserId): set<TaskId> {
    set t | t in Executing(s) && s.tasks[t].owner == u
  }

  lemma {:induction false} CountWithin(ts: set<TaskId>, weights: map<nat, int>)
    requires forall t | t in ts :: t in weights && weights[t] == 1
    requires forall t | t in weights :: t !in ts ==> weights[t] == 0
    ensures MapSum.Total(weights) == |ts|
    decreases |ts|
  {
    if ts == {} {
      MapSum.TotalZero(weights);
    } else {
      var t :| t in ts;
      MapSum.TotalSplit(weights, t);
      CountWithin(ts - {t}, weights - {t});
    }
  }

  /** The counters count tasks: active is the number of the user's live tasks,
      running the number of those with a round of theirs in a slot. */
  lemma CountersCount(s: State, u: UserId)
    requires Inv(s) && u in s.usage
    ensures s.usage[u].active == |LiveTasksOf(s, u)|
    ensures s.usage[u].running == |ExecutingOf(s, u)|
  {
    hide CellOk, LedgerOk, SlotsOk, ListsOk;
    forall t | t in s.tasks
      ensures Held(s.tasks[t].reservations, HoldActive) == if Unfinished(s.tasks[t].status) then 1 else 0
      ensures Held(s.tasks[t].reservations, HoldRunning) == if t in Executing(s) then 1 else 0
    {
      HoldsCount(s, t);
    }
    CountWithin(LiveTasksOf(s, u), Weights(s.tasks, ActiveOf(u)));
    CountWithin(ExecutingOf(s, u), Weights(s.tasks, RunningOf(u)));
    CountersSum(s, u);
  }

  lemma CountersSum(s: State, u: UserId)
    requires Inv(s) && u in s.usage
    ensures s.usage[u].active == Sum(s.tasks, ActiveOf(u)) && s.usage[u].running == Sum(s.tasks, RunningOf(u))
  {
    hide CellOk, SlotsOk, ListsOk;
  }

  lemma HoldsCount(s: State, t: TaskId)
    requires Inv(s) && t in s.tasks
    ensures Held(s.tasks[t].reservations, HoldActive) == if Unfinished(s.tasks[t].status) then 1 else 0
    ensures Held(s.tasks[t].reservations, HoldRunning) == if t in Executing(s) then 1 else 0
  {
    hide LedgerOk, SlotsOk, ListsOk, FilesOk, Backed;
  }

  /** Over whole runs: unless a quota was ever set below its use, a user has no
      more live tasks, executing rounds and retained bytes than the quota allows. */
  lemma QuotaBoundsTasks(slotCount: nat, maxStorage: nat, actions: seq<Action>, u: UserId)
    requires NeverUndercut(Init(slotCount, maxStorage), actions)
    ensures var s := Run(Init(slotCount, maxStorage), actions);
            u in s.usage ==> u in s.quota && |LiveTasksOf(s, u)| <= s.quota[u].maxActive
                                          && |ExecutingOf(s, u)| <= s.quota[u].maxRunning
                                          && Sum(s.tasks, StorageOf(u)) + UnrefundedOf(s, u) <= s.quota[u].maxStorage
  {
    hide Inv, Apply, Executing;
    var s0 := Init(slotCount, maxStorage);
    InitOk(slotCount, maxStorage);
    RunOk(s0, actions);
    QuotaAlongRun(s0, actions);
    var s := Run(s0, actions);
    if u in s.usage {
      QuotaRowsExist(s);
      CountersCount(s, u);
      StorageKnown(s, u);
    }
  }

  lemma QuotaRowsExist(s: State)
    requires Inv(s)
    ensures s.usage.Keys <= s.quota.Keys
  {
  }
}
