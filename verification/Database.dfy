/** The database itself: its tables, and every transaction as one atomic method
    that opens a session, runs the statements and commits or rolls back. Each
    is proved to be the step of the protocol that it stands for. */
module Databases {
  import opened TaskTypes
  import opened FileRules
  import opened Rounds
  import opened Protocol
  import opened Invariant
  import opened Steps
  import opened Runs
  import opened Ledgers
  import opened Sessions
  import opened TaskRelease
  import TaskDispatcher
  import TaskExecutor
  import TaskService
  import TaskArtifacts
  import TaskFileService

  /** What a transaction may rely on in the rows it locks. */
  lemma Opening(s: State, t: TaskId)
    requires Inv(s) && t in s.tasks
    ensures CellOk(s.tasks[t], s.next) && Funded(BooksOf(s, t))
    ensures Orderly(s.tasks[t]) && BytesOnFiles(s.tasks[t].reservations)
    ensures s.tasks[t].status in {Uploading, Ready, Completed, Failed, Aborted} ==> !HasOpen(s.tasks[t].rounds)
    ensures s.tasks[t].owner in s.usage && s.tasks[t].owner in s.quota
  {
    hide Inv, Funded, CellOk, Orderly, BytesOnFiles, HasOpen;
    Known(s, t);
    TaskService.Tidy(s.tasks[t], s.next);
    AlwaysFunded(s, t);
  }

  /** A transaction that moves no counter commits as an edit of its task alone. */
  lemma QuietPut(s: State, t: TaskId, c: Cell, next: nat)
    requires t in s.tasks && s.tasks[t].owner in s.usage && c.owner == s.tasks[t].owner
    ensures Put(s, t, BooksOf(s, t).(cell := c)).(next := next) == QuietStep(s, t, c, next)
  {
  }

  lemma Told(c: Cell, body: EventBody)
    ensures Say(c, body).owner == c.owner
  {
  }

  lemma SentOwner(c: Cell, mid: MessageId, rid: RoundId)
    ensures Sent(c, mid, rid).owner == c.owner
  {
  }

  lemma CancellingOwner(c: Cell, terminal: Terminal)
    ensures Cancelling(c, terminal).owner == c.owner
  {
  }

  class Database {
    var tasks: map<TaskId, Cell>
    var usage: map<UserId, Usage>
    var quota: map<UserId, Quota>
    var daily: map<(UserId, int), nat>
    var storage: int
    var maxStorage: nat
    var slots: seq<Slot>
    var next: nat
    /** Candidates that a sweep has read and not yet acted on. */
    var ended: set<TaskId>
    var drained: set<(TaskId, Terminal)>
    /** Errors logged because an account fell short. */
    var alarms: nat
    ghost var unrefunded: map<UserId, nat>

    constructor (slotCount: nat, platformMax: nat)
      ensures View() == Init(slotCount, platformMax) && Inv(View()) && alarms == 0
    {
      tasks, usage, quota, daily := map[], map[], map[], map[];
      storage, maxStorage, next := 0, platformMax, 0;
      slots := seq(slotCount, _ => Free);
      ended, drained, alarms := {}, {}, 0;
      unrefunded := map[];
      new;
      InitOk(slotCount, platformMax);
      assert slots == Init(slotCount, platformMax).slots;
    }

    ghost function View(): State
      reads this
    {
      State(tasks, usage, quota, daily, storage, maxStorage, slots, next, unrefunded, ended, drained)
    }

    /** BEGIN, with the task's rows, its owner's counters and the platform rows. */
    method Begin(t: TaskId) returns (db: Session)
      requires t in tasks && tasks[t].owner in usage && tasks[t].owner in quota
      ensures fresh(db) && db.task == t && db.Rows() == BooksOf(View(), t)
      ensures db.quota == QuotaOf(View(), tasks[t].owner) && db.platformMax == maxStorage
      ensures db.next == next && db.alarms == 0
    {
      var c := tasks[t];
      db := new Session(t, c, usage[c.owner], quota[c.owner], storage, maxStorage, slots, next);
    }

    /** COMMIT. Not calling it is the rollback. */
    method Commit(db: Session)
      modifies this
      ensures View() == Put(old(View()), db.task, db.Rows()).(next := db.next)
      ensures alarms == old(alarms) + db.alarms
    {
      tasks := tasks[db.task := db.row];
      usage := usage[db.row.owner := db.usage];
      storage, slots, next := db.platform, db.slots, db.next;
      alarms := alarms + db.alarms;
    }

    // The dispatcher.

    method Claim(t: TaskId, rid: RoundId, iid: Instance) returns (out: Outcome)
      requires Inv(View())
      modifies this
      ensures Result(View(), out) == Protocol.Claim(old(View()), t, rid, iid) && alarms == old(alarms)
    {
      hide Inv, CellOk, Funded, Orderly, BytesOnFiles, ClaimedBooks;
      if t !in tasks { return Dropped; }
      Opening(View(), t);
      var db := Begin(t);
      var dropped := TaskDispatcher.ClaimRound(db, rid, iid);
      if dropped { return Dropped; }
      Commit(db);
      return Done;
    }

    method Reclaim(t: TaskId, rid: RoundId, lo: Option<Instance>, le: nat) returns (out: Outcome)
      requires Inv(View())
      modifies this
      ensures Result(View(), out) == Protocol.Reclaim(old(View()), t, rid, lo, le) && alarms == old(alarms)
    {
      hide Inv, CellOk, Funded, Orderly, BytesOnFiles, Reclaimed, GiveTier;
      if t !in tasks { return Dropped; }
      Opening(View(), t);
      var db := Begin(t);
      var dropped := TaskDispatcher.ReclaimExpiredRound(db, rid, lo, le);
      if dropped { return Dropped; }
      Commit(db);
      return Done;
    }

    method CancelRound(t: TaskId, rid: RoundId) returns (out: Outcome)
      requires Inv(View())
      modifies this
      ensures Result(View(), out) == Protocol.CancelRound(old(View()), t, rid) && alarms == old(alarms)
    {
      hide Inv, CellOk, Funded, Orderly, BytesOnFiles, Collected, GiveTier;
      if t !in tasks { return Dropped; }
      Opening(View(), t);
      var db := Begin(t);
      var dropped := TaskDispatcher.CancelCancellingRound(db, rid);
      if dropped { return Dropped; }
      Commit(db);
      return Done;
    }

    method SweepUpload(t: TaskId) returns (out: Outcome)
      requires Inv(View())
      modifies this
      ensures Result(View(), out) == Protocol.SweepUpload(old(View()), t) && alarms == old(alarms)
    {
      hide Inv, CellOk, Funded, Orderly, BytesOnFiles, Turn, GiveTier;
      if t !in tasks { return Dropped; }
      Opening(View(), t);
      var db := Begin(t);
      var dropped := TaskDispatcher.ExpireUpload(db);
      if dropped { return Dropped; }
      Commit(db);
      return Done;
    }

    /** The unlocked read of the retention sweep, one row of it. */
    method ListEnded(t: TaskId) returns (out: Outcome)
      modifies `ended
      ensures Result(View(), out) == Protocol.ListEnded(old(View()), t)
    {
      if t !in tasks || tasks[t].status in {Uploading, Queued, Running, Ready} { return Dropped; }
      ended := ended + {t};
      return Done;
    }

    /** No status is read again; the candidate list is all there is. */
    method SweepEnded(t: TaskId) returns (out: Outcome)
      requires Inv(View()) && t in ended
      modifies this
      ensures Result(View(), out) == Protocol.SweepEnded(old(View()), t) && alarms == old(alarms)
    {
      hide Inv, CellOk, Funded, Orderly, BytesOnFiles, Swept, Give;
      if t !in tasks { return Dropped; }
      Opening(View(), t);
      var db := Begin(t);
      TaskDispatcher.CleanTerminal(db);
      Commit(db);
      return Done;
    }

    // The executor.

    method PersistFact(t: TaskId, rid: RoundId, iid: Instance, epoch: nat, author: Speaker) returns (out: Outcome)
      requires Inv(View())
      modifies this
      ensures Result(View(), out) == Protocol.PersistFact(old(View()), t, rid, iid, epoch, author)
      ensures alarms == old(alarms)
    {
      hide Inv, CellOk, Funded, Orderly, BytesOnFiles, Say;
      if t !in tasks { return Dropped; }
      Opening(View(), t);
      var db := Begin(t);
      var saved := TaskExecutor.PersistFact(db, rid, iid, epoch, author);
      if !saved { return Dropped; }
      Told(tasks[t], MessageSaved(next, author, Some(rid)));
      QuietPut(View(), t, db.row, db.next);
      Commit(db);
      return Done;
    }

    method Settle(t: TaskId, rid: RoundId, iid: Instance, epoch: nat, tail: bool, revoked: bool) returns (out: Outcome)
      requires Inv(View())
      modifies this
      ensures Result(View(), out) == Protocol.Settle(old(View()), t, rid, iid, epoch, tail, revoked)
      ensures alarms == old(alarms)
    {
      hide Inv, CellOk, Funded, Orderly, BytesOnFiles, Settled, GiveTier;
      if t !in tasks { return Dropped; }
      Opening(View(), t);
      var db := Begin(t);
      var settled := TaskExecutor.Settle(db, rid, iid, epoch, tail, revoked);
      if !settled { return Dropped; }
      Commit(db);
      return Done;
    }

    method FailDeadline(t: TaskId, rid: RoundId, iid: Instance, epoch: nat) returns (out: Outcome)
      requires Inv(View())
      modifies this
      ensures Result(View(), out) == Protocol.FailDeadline(old(View()), t, rid, iid, epoch) && alarms == old(alarms)
    {
      hide Inv, CellOk, Funded, Orderly, BytesOnFiles, RoundLostCell, GiveTier;
      if t !in tasks { return Dropped; }
      Opening(View(), t);
      var db := Begin(t);
      var r := TaskExecutor.EnforceRoundDeadline(db, rid, iid, epoch);
      if r == TaskExecutor.Abstained { return Dropped; }
      Commit(db);
      return Done;
    }

    /** The kill switch and the suspension cascade, one task of theirs. */
    method Stop(t: TaskId, why: Reason) returns (out: Outcome)
      requires Inv(View())
      modifies this
      ensures Result(View(), out) == Protocol.Stop(old(View()), t, why) && alarms == old(alarms)
    {
      hide Inv, CellOk, Funded, Orderly, BytesOnFiles, Stopped, GiveTier;
      if t !in tasks { return Dropped; }
      Opening(View(), t);
      var db := Begin(t);
      var r := TaskExecutor.StopTask(db, why);
      if r == TaskExecutor.Abstained { return Dropped; }
      Commit(db);
      return Done;
    }

    /** The unlocked read of the reconciler, one row of it. */
    method ListDrained(t: TaskId) returns (out: Outcome)
      requires Inv(View())
      modifies `drained
      ensures Result(View(), out) == Protocol.ListDrained(old(View()), t)
    {
      hide Inv, CellOk, Funded, BytesOnFiles;
      if t !in tasks { return Dropped; }
      Opening(View(), t);
      var c := tasks[t];
      OnlyNewest(c.rounds, InTask(ACTIVE_ROUND_STATES), Touch);
      if c.status == Running && c.pending.Some? && Updated(c.rounds, InTask(ACTIVE_ROUND_STATES), Touch) == [] {
        drained := drained + {(t, c.pending.value)};
        return Done;
      }
      return Dropped;
    }

    method Reconcile(t: TaskId, terminal: Terminal) returns (out: Outcome)
      requires Inv(View()) && (t, terminal) in drained
      modifies this
      ensures Result(View(), out) == Protocol.Reconcile(old(View()), t, terminal) && alarms == old(alarms)
    {
      hide Inv, CellOk, Funded, Orderly, BytesOnFiles, Reconciled, GiveTier;
      if t !in tasks { return Dropped; }
      Opening(View(), t);
      var db := Begin(t);
      var finalized := TaskExecutor.ReconcileOne(db, terminal);
      if !finalized { return Dropped; }
      Commit(db);
      return Done;
    }

    // The user's requests.

    /** Row-level security and the deleted status make a task look missing. */
    method Seen(owner: UserId, t: TaskId) returns (seen: bool)
      ensures seen <==> Visible(View(), owner, t)
    {
      return t in tasks && tasks[t].owner == owner && tasks[t].status != Deleted;
    }

    /** _charge_creation_quota: materialise the quota rows, then the day's count
        and the active count, each by a conditional increment. */
    method ChargeCreationQuota(owner: UserId, day: int)
      returns (refusal: Option<Outcome>, usages: map<UserId, Usage>, quotas: map<UserId, Quota>,
          started: map<(UserId, int), nat>)
      ensures var e, n := Ensure(View(), owner), DailyOf(View(), owner, day);
              && refusal == (if n >= e.quota[owner].maxDaily then Some(DailyExceeded)
                             else if e.usage[owner].active >= e.quota[owner].maxActive then Some(ActiveExceeded)
                                 else None)
              && (refusal == None ==>
                    && quotas == e.quota && started == daily[(owner, day) := n + 1]
                    && usages == e.usage[owner := e.usage[owner].(active := e.usage[owner].active + 1)])
    {
      quotas := if owner in quota then quota else quota[owner := DEFAULT_QUOTA];
      usages := if owner in usage then usage else usage[owner := Usage(0, 0, 0)];
      started := daily;
      if (owner, day) !in started {
        if quotas[owner].maxDaily == 0 { return Some(DailyExceeded), usages, quotas, started; }
        started := started[(owner, day) := 1];
      } else {
        if started[(owner, day)] >= quotas[owner].maxDaily { return Some(DailyExceeded), usages, quotas, started; }
        started := started[(owner, day) := started[(owner, day)] + 1];
      }
      if usages[owner].active >= quotas[owner].maxActive { return Some(ActiveExceeded), usages, quotas, started; }
      usages := usages[owner := usages[owner].(active := usages[owner].active + 1)];
      refusal := None;
    }

    /** The rows of a new task: its first message and event under sequence 1,
        the back-reference to the message, and the active reservation. */
    method NewRows(owner: UserId, provider: ProviderId, mid: MessageId) returns (c: Cell)
      ensures c == NewCell(owner, provider, mid)
    {
      c := Cell(owner, provider, Uploading, None, None, None, false, [], [], [], Log(0, [], []));
      c := c.(log := c.log.(sequence := c.log.sequence + 1));
      c := c.(log := c.log.(messages := c.log.messages + [Message(mid, c.log.sequence, ByUser)]));
      c := c.(log := c.log.(events := c.log.events + [Event(c.log.sequence, MessageSaved(mid, ByUser, None))]));
      c := c.(initial := Some(mid));
      c := c.(reservations := c.reservations + [Reservation(HoldActive, None, 0, true)]);
      assert c.reservations == [Reservation(HoldActive, None, 0, true)];
    }

    method CreateTask(owner: UserId, provider: ProviderId, day: int, admitted: bool, toolsOn: bool)
      returns (out: Outcome)
      modifies this
      ensures Result(View(), out) == Create(old(View()), owner, provider, day, admitted, toolsOn)
      ensures alarms == old(alarms)
    {
      hide NewCell, Ensure, DailyOf;
      if !admitted { return InvalidInput; }
      var refusal, usages, quotas, started := ChargeCreationQuota(owner, day);
      if refusal.Some? { return refusal.value; }
      if !toolsOn { return ToolDisabled; }
      var c := NewRows(owner, provider, next + 1);
      InsertTask(c, usages, quotas, started);
      return Done;
    }

    method InsertTask(c: Cell, usages: map<UserId, Usage>, quotas: map<UserId, Quota>, started: map<(UserId, int), nat>)
      modifies this
      ensures View() == old(View()).(tasks := old(tasks)[old(next) := c], usage := usages, quota := quotas,
          daily := started, next := old(next) + 2)
      ensures alarms == old(alarms)
    {
      tasks, usage, quota, daily, next := tasks[next := c], usages, quotas, started, next + 2;
    }

    method UploadFiles(owner: UserId, t: TaskId, uploads: seq<Upload>) returns (out: Outcome)
      requires Inv(View())
      modifies this
      ensures Result(View(), out) == Protocol.UploadFiles(old(View()), owner, t, uploads) && alarms == old(alarms)
    {
      hide Inv, Funded, Orderly, BytesOnFiles, Stage, BatchNamesOk, BatchWithinLimits, ValidName, RoundsOk, HoldsOk,
        Backed, FilesOk;
      var seen := Seen(owner, t);
      if !seen { return NotFound; }
      Opening(View(), t);
      var db := Begin(t);
      out := TaskFileService.UploadFiles(db, uploads);
      if out == Done { Commit(db); }
    }

    method DeleteFile(owner: UserId, t: TaskId, f: FileId) returns (out: Outcome)
      requires Inv(View())
      modifies this
      ensures Result(View(), out) == Protocol.DeleteFile(old(View()), owner, t, f) && alarms == old(alarms)
    {
      hide Inv, Funded, Orderly, BytesOnFiles, RoundsOk, HoldsOk, Backed, Find;
      var seen := Seen(owner, t);
      if !seen { return NotFound; }
      Opening(View(), t);
      var db := Begin(t);
      out := TaskFileService.DeleteFile(db, f);
      if out == Done { Commit(db); }
    }

    method CommitInput(owner: UserId, t: TaskId) returns (out: Outcome)
      requires Inv(View())
      modifies this
      ensures Result(View(), out) == Protocol.Commit(old(View()), owner, t) && alarms == old(alarms)
    {
      hide Inv, Funded, Orderly, BytesOnFiles, CommittedCell, LiveSize, RoundsOk, HoldsOk, Backed, FilesOk;
      var seen := Seen(owner, t);
      if !seen { return NotFound; }
      Opening(View(), t);
      var db := Begin(t);
      out := TaskService.CommitInput(db);
      if out == Done { Commit(db); }
    }

    method SendMessage(owner: UserId, t: TaskId, textOk: bool) returns (out: Outcome)
      requires Inv(View())
      modifies this
      ensures Result(View(), out) == Send(old(View()), owner, t, textOk) && alarms == old(alarms)
    {
      hide Inv, CellOk, Funded, Orderly, BytesOnFiles, Sent, HasOpen;
      var seen := Seen(owner, t);
      if !seen { return NotFound; }
      Opening(View(), t);
      var db := Begin(t);
      out := TaskService.SendMessage(db, textOk);
      if out == Done {
        SentOwner(tasks[t], next, next + 1);
        QuietPut(View(), t, db.row, db.next);
        Commit(db);
      }
    }

    /** abort_task and complete_task. */
    method FinishTask(owner: UserId, t: TaskId, terminal: Terminal) returns (out: Outcome)
      requires Inv(View()) && terminal != ToDeleted
      modifies this
      ensures Result(View(), out) == Finish(old(View()), owner, t, terminal) && alarms == old(alarms)
    {
      hide Inv, CellOk, Funded, Orderly, BytesOnFiles, Turn, Closed, Cancelling, HasOpen, GiveTier;
      var seen := Seen(owner, t);
      if !seen { return NotFound; }
      Opening(View(), t);
      var db := Begin(t);
      out := TaskService.FinishTask(db, terminal);
      if out == Requested {
        CancellingOwner(tasks[t], terminal);
        QuietPut(View(), t, db.row, db.next);
      }
      if out == Done || out == Requested { Commit(db); }
    }

    method DeleteTask(owner: UserId, t: TaskId) returns (out: Outcome)
      requires Inv(View())
      modifies this
      ensures Result(View(), out) == Delete(old(View()), owner, t) && alarms == old(alarms)
    {
      hide Inv, CellOk, Funded, Orderly, BytesOnFiles, Move, Closed, Cancelling, GiveTier;
      var seen := Seen(owner, t);
      if !seen { return NotFound; }
      Opening(View(), t);
      var db := Begin(t);
      out := TaskService.DeleteTask(db);
      Commit(db);
    }

    method RegisterOutput(owner: UserId, t: TaskId, rid: RoundId, epoch: nat, name: string, size: nat)
      returns (out: Outcome)
      requires Inv(View())
      modifies this
      ensures Result(View(), out) == Protocol.RegisterOutput(old(View()), owner, t, rid, epoch, name, size)
      ensures alarms == old(alarms)
    {
      hide Inv, CellOk, Funded, Orderly, BytesOnFiles, Registering, Replaced, LiveTotal, ValidName, LastAtEpoch;
      var seen := Seen(owner, t);
      if !seen { return NotFound; }
      Opening(View(), t);
      var db := Begin(t);
      out := TaskArtifacts.RegisterOutput(db, rid, epoch, name, size);
      if out == Done { Commit(db); }
    }

    /** update_quotas: the given dimensions over the row, or over the defaults. */
    method SetQuota(u: UserId, ch: QuotaChange) returns (out: Outcome)
      modifies `quota
      ensures Result(View(), out) == Protocol.SetQuota(old(View()), u, ch)
    {
      if !ValidChange(ch) { return InvalidInput; }
      var after := if u in quota then quota[u] else DEFAULT_QUOTA;
      if ch.daily.Some? { after := after.(maxDaily := ch.daily.value); }
      if ch.active.Some? { after := after.(maxActive := ch.active.value); }
      if ch.running.Some? { after := after.(maxRunning := ch.running.value); }
      if ch.storage.Some? { after := after.(maxStorage := ch.storage.value); }
      quota := quota[u := after];
      return Done;
    }
  }
}
