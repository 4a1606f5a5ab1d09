/** The task protocol as one atomic step per transaction.

    Each step speaks about the one round that may be open, the ledgers, and the
    log; the class Database carries the statement-by-statement form with its
    repeated rowcount checks. Arguments that the code takes from an earlier,
    unlocked read are plain arguments here: they may be arbitrarily stale. */
module Protocol {
  import opened TaskTypes
  import opened Holdings
  import opened EventLog
  import opened FileRules
  import opened Rounds

  /** `unrefunded` is bookkeeping of the model: bytes a user is still charged
      for although nothing holds them. `ended` and `drained` are the candidate
      lists that two sweeps carry from their unlocked read into a later
      transaction that does not look again. */
  datatype State = State(
    tasks: map<TaskId, Cell>,
    usage: map<UserId, Usage>,
    quota: map<UserId, Quota>,
    daily: map<(UserId, int), nat>,
    storage: int,
    maxStorage: nat,
    slots: seq<Slot>,
    next: nat,
    unrefunded: map<UserId, nat>,
    ended: set<TaskId>,
    drained: set<(TaskId, Terminal)>)

  datatype Outcome =
    | Done            // committed
    | Requested       // 202: the round is cancelling, the intent is recorded
    | Unchanged       // 200: nothing left to cancel
    | Dropped         // candidate lost its arbitration
    | ToolDisabled | NotFound | InvalidTransition | InputCommitted | RoundBusy
    | DailyExceeded | ActiveExceeded | StorageExceeded
    | InvalidInput | FileLimit | FileMissing | Rejected

  datatype Result = Result(state: State, outcome: Outcome)

  const DEFAULT_QUOTA: Quota := Quota(5, 3, 1, 1_073_741_824)

  function UsageOf(s: State, u: UserId): Usage {
    if u in s.usage then s.usage[u] else Usage(0, 0, 0)
  }

  function QuotaOf(s: State, u: UserId): Quota {
    if u in s.quota then s.quota[u] else Quota(0, 0, 0, 0)
  }

  function UnrefundedOf(s: State, u: UserId): nat {
    if u in s.unrefunded then s.unrefunded[u] else 0
  }

  // One task with the counters its transactions may move.

  datatype Books = Books(cell: Cell, usage: Usage, storage: int, slots: seq<Slot>)

  function BooksOf(s: State, t: TaskId): Books
    requires t in s.tasks
  {
    Books(s.tasks[t], UsageOf(s, s.tasks[t].owner), s.storage, s.slots)
  }

  function Put(s: State, t: TaskId, b: Books): State {
    s.(tasks := s.tasks[t := b.cell], usage := s.usage[b.cell.owner := b.usage],
       storage := b.storage, slots := b.slots)
  }

  function FreeSlots(slots: seq<Slot>, t: TaskId): (out: seq<Slot>)
    ensures |out| == |slots|
    ensures forall i | 0 <= i < |slots| :: out[i] == if slots[i] == Leased(t) then Free else slots[i]
  {
    seq(|slots|, i requires 0 <= i < |slots| => if slots[i] == Leased(t) then Free else slots[i])
  }

  /** The lowest free slot at or after `i`, or |slots|. */
  function FirstFree(slots: seq<Slot>, i: nat): (r: nat)
    requires i <= |slots|
    ensures i <= r <= |slots|
    ensures r < |slots| ==> slots[r] == Free
    decreases |slots| - i
  {
    if i == |slots| || slots[i] == Free then i else FirstFree(slots, i + 1)
  }

  lemma {:induction false} FirstIsFirst(slots: seq<Slot>, i: nat)
    requires i <= |slots|
    ensures forall j | i <= j < FirstFree(slots, i) :: slots[j] != Free
    decreases |slots| - i
  {
    if i < |slots| && slots[i] != Free {
      FirstIsFirst(slots, i + 1);
    }
  }

  const EVERY_KIND: set<Kind> := {HoldActive, HoldRunning, HoldRoot, HoldCopy}

  /** The tier of a release, chosen by the status already in place. */
  function Tier(status: Status): set<Kind> {
    if status == Deleted then EVERY_KIND
    else if Unfinished(status) then {HoldRunning}
    else {HoldRunning, HoldActive}
  }

  function HeldIf(rs: seq<Reservation>, kinds: set<Kind>, k: Kind): nat {
    if k in kinds then Held(rs, k) else 0
  }

  /** Release the given kinds and pay every counter back what they held. */
  function Give(t: TaskId, b: Books, kinds: set<Kind>): Books {
    var rs := b.cell.reservations;
    var bytes := BytesIf(rs, kinds, HoldRoot) + BytesIf(rs, kinds, HoldCopy);
    Books(
      b.cell.(reservations := Release(rs, OfKinds(kinds))),
      Usage(b.usage.active - HeldIf(rs, kinds, HoldActive),
            b.usage.running - HeldIf(rs, kinds, HoldRunning),
            b.usage.storage - bytes),
      b.storage - bytes,
      if HeldIf(rs, kinds, HoldRunning) > 0 then FreeSlots(b.slots, t) else b.slots)
  }

  function GiveTier(t: TaskId, b: Books): Books {
    Give(t, b, Tier(b.cell.status))
  }

  /** Giving back touches the row's reservations and nothing else of it. */
  lemma TierKeeps(t: TaskId, b: Books)
    ensures GiveTier(t, b).cell == b.cell.(reservations := GiveTier(t, b).cell.reservations)
  {
  }

  // Edits of one cell.

  function Say(c: Cell, body: EventBody): Cell {
    c.(log := Emit(c.log, body))
  }

  /** Set the status, leave the reason column alone, and say so. */
  function Move(c: Cell, status: Status): Cell {
    Say(c.(status := status), StatusChanged(status, None))
  }

  /** Set the status and the reason, and say so. */
  function Turn(c: Cell, status: Status, reason: Option<Reason>): Cell {
    Say(c.(status := status, reason := reason), StatusChanged(status, reason))
  }

  function SetLast(c: Cell, r: Round): Cell
    requires |c.rounds| > 0
  {
    c.(rounds := c.rounds[|c.rounds| - 1 := r])
  }

  function Last(c: Cell): Round
    requires |c.rounds| > 0
  {
    c.rounds[|c.rounds| - 1]
  }

  function Hold(c: Cell, kind: Kind, file: Option<FileId>, bytes: nat): Cell {
    c.(reservations := c.reservations + [Reservation(kind, file, bytes, true)])
  }

  function EndRound(c: Cell, state: RoundState): Cell
    requires |c.rounds| > 0
  {
    SetLast(c, Last(c).(state := state, leaseOwner := None))
  }

  /** A task that has just ended drops its open round. */
  function Closed(c: Cell, cause: Option<Reason>): Cell {
    if HasOpen(c.rounds)
    then Say(SetLast(c, Last(c).(state := RCancelled)), RoundCancelled(None, cause))
    else c
  }

  function CommittedCell(c: Cell, rid: RoundId): Cell
    requires c.initial.Some?
  {
    var c1 := Hold(c.(files := CommitStaged(c.files), committed := true,
                      rounds := c.rounds + [NewRound(rid, c.initial.value)]), HoldRoot, None, LiveSize(c.files, Input));
    Say(Move(c1, Queued), RoundQueued(rid, None))
  }

  function Sent(c: Cell, mid: MessageId, rid: RoundId): Cell {
    var c1 := Say(c, MessageSaved(mid, ByUser, None)).(rounds := c.rounds + [NewRound(rid, mid)]);
    Say(Move(c1, Queued), RoundQueued(rid, None))
  }

  function Cancelling(c: Cell, terminal: Terminal): Cell {
    (if HasOpen(c.rounds) then SetLast(c, Last(c).(state := RCancelling)) else c).(pending := Some(terminal))
  }

  function Claimed(c: Cell, iid: Instance): Cell
    requires |c.rounds| > 0
  {
    var r := Last(c);
    var c1 := SetLast(c, r.(state := RRunning, leaseOwner := Some(iid), epoch := r.epoch + 1,
        attempt := r.attempt + 1));
    Say(Move(Hold(c1, HoldRunning, None, 0), Running), RoundRunning(r.id, r.attempt + 1))
  }

  /** ... with the running quota and the first free slot it takes. */
  function ClaimedBooks(b: Books, t: TaskId, iid: Instance): Books
    requires |b.cell.rounds| > 0 && FirstFree(b.slots, 0) < |b.slots|
  {
    Books(Claimed(b.cell, iid), b.usage.(running := b.usage.running + 1), b.storage,
        b.slots[FirstFree(b.slots, 0) := Leased(t)])
  }

  /** A running round that is lost for good takes its task with it. */
  function RoundLostCell(c: Cell): Cell
    requires |c.rounds| > 0
  {
    Say(Turn(EndRound(c, RFailed), Failed, Some(RoundLost)), RoundFailed(Last(c).id, Last(c).attempt))
  }

  function Requeued(c: Cell): Cell
    requires |c.rounds| > 0
  {
    Say(Move(EndRound(c, RPending), Queued), RoundQueued(Last(c).id, Some(Last(c).attempt)))
  }

  function Reclaimed(c: Cell): Cell
    requires |c.rounds| > 0
  {
    if Last(c).attempt >= ATTEMPT_LIMIT then RoundLostCell(c) else Requeued(c)
  }

  function Collected(c: Cell): Cell
    requires |c.rounds| > 0
  {
    Say(EndRound(c, RCancelled), RoundCancelled(Some(Last(c).id), None))
  }

  function Settled(c: Cell, mid: MessageId, tail: bool, revoked: bool): Cell
    requires |c.rounds| > 0
  {
    var rid := Last(c).id;
    var c1 := SetLast(c, Last(c).(state := RSettled));
    var c2 := if tail then Say(c1, MessageSaved(mid, ByAssistant, Some(rid))) else c1;
    var c3 := Say(c2, RoundSettled(rid, Last(c).attempt));
    if revoked then Turn(c3, Aborted, Some(KeyRevoked)) else Turn(c3, Ready, None)
  }

  function Reconciled(c: Cell, terminal: Terminal): Cell {
    Turn(c.(pending := None), StatusOf(terminal), ReasonFor(terminal))
  }

  function Stopped(c: Cell, reason: Reason): Cell {
    var c1 := Turn(c.(pending := None), Aborted, Some(reason));
    if HasOpen(c.rounds) then Say(EndRound(c1, RCancelled), RoundCancelled(Some(Last(c).id), Some(reason))) else c1
  }

  function Swept(c: Cell): Cell {
    c.(rounds := [], files := Unlink(c.files), initial := None, log := Log(c.log.sequence, [], []))
  }

  function Retired(c: Cell, i: nat): Cell
    requires i < |c.files|
  {
    c.(files := c.files[i := c.files[i].(state := Tombstone)],
       reservations := Release(c.reservations, CopyFor(c.files[i].id)))
  }

  function Stored(c: Cell, f: File): Cell {
    Hold(c.(files := c.files + [f]), HoldCopy, Some(f.id), f.size)
  }

  /** The bytes a registration under this name takes back. */
  function Replaced(c: Cell, name: string): nat {
    var i := Find(c.files, OutputNamed(name), 0);
    if i < |c.files| then c.files[i].size else 0
  }

  function Registering(c: Cell, rid: RoundId, name: string, size: nat, fid: FileId): Cell {
    var i := Find(c.files, OutputNamed(name), 0);
    Stored(if i < |c.files| then Retired(c, i) else c, File(fid, Output, name, size, Registered, Some(rid)))
  }

  function RevokedCell(c: Cell): Cell {
    Closed(Turn(c.(reservations := Release(c.reservations, OfKinds(EVERY_KIND))), Failed, Some(KeyRevoked)),
        Some(KeyRevoked))
  }

  /** Edit one task and give back the tier of the status it ends up with. */
  function TierStep(s: State, t: TaskId, c: Cell, next: nat): Result
    requires t in s.tasks
  {
    Result(Put(s, t, GiveTier(t, BooksOf(s, t).(cell := c))).(next := next), Done)
  }

  /** Edit one task without touching any counter. */
  function QuietStep(s: State, t: TaskId, c: Cell, next: nat): State {
    s.(tasks := s.tasks[t := c], next := next)
  }

  // Creation and input.

  function Ensure(s: State, u: UserId): (e: State)
    ensures u in e.usage && u in e.quota
    ensures e == s.(usage := e.usage, quota := e.quota)
  {
    s.(usage := if u in s.usage then s.usage else s.usage[u := Usage(0, 0, 0)],
       quota := if u in s.quota then s.quota else s.quota[u := DEFAULT_QUOTA])
  }

  function DailyOf(s: State, u: UserId, day: int): nat {
    if (u, day) in s.daily then s.daily[(u, day)] else 0
  }

  function NewCell(owner: UserId, provider: ProviderId, mid: MessageId): Cell {
    Cell(owner, provider, Uploading, None, None, Some(mid), false, [],
         [Reservation(HoldActive, None, 0, true)], [],
         Emit(Log(0, [], []), MessageSaved(mid, ByUser, None)))
  }

  /** `admitted` stands for the message, revision and MCP gates, `toolsOn` for
      the tool gate that comes after the quota. */
  function Create(s: State, owner: UserId, provider: ProviderId, day: int, admitted: bool, toolsOn: bool): Result {
    if !admitted then Result(s, InvalidInput) else
    var e := Ensure(s, owner);
    var q := e.quota[owner];
    if DailyOf(s, owner, day) >= q.maxDaily then Result(s, DailyExceeded)
    else if e.usage[owner].active >= q.maxActive then Result(s, ActiveExceeded)
    else if !toolsOn then Result(s, ToolDisabled)
    else
      var u := e.usage[owner];
      Result(
        e.(tasks := e.tasks[s.next := NewCell(owner, provider, s.next + 1)],
           usage := e.usage[owner := u.(active := u.active + 1)],
           daily := e.daily[(owner, day) := DailyOf(s, owner, day) + 1],
           next := s.next + 2),
        Done)
  }

  /** Another owner's task, a deleted task and a missing task look alike. */
  predicate Visible(s: State, owner: UserId, t: TaskId) {
    t in s.tasks && s.tasks[t].owner == owner && s.tasks[t].status != Deleted
  }

  /** Why the input of a task that left uploading cannot change. */
  function FrozenOutcome(c: Cell): Outcome {
    if c.committed || c.status in {Queued, Running, Ready} then InputCommitted else InvalidTransition
  }

  function UploadFiles(s: State, owner: UserId, t: TaskId, uploads: seq<Upload>): Result {
    if !Visible(s, owner, t) then Result(s, NotFound) else
    var c := s.tasks[t];
    if c.status != Uploading then Result(s, FrozenOutcome(c))
    else if uploads == [] || (exists i :: 0 <= i < |uploads| && !ValidName(uploads[i].name))
        then Result(s, InvalidInput)
    else if !BatchNamesOk(c.files, uploads) then Result(s, InvalidInput)
    else if !BatchWithinLimits(c.files, uploads) then Result(s, FileLimit)
    else
      Result(QuietStep(s, t, c.(files := Stage(c.files, uploads, s.next)), s.next + |uploads|), Done)
  }

  function DeleteFile(s: State, owner: UserId, t: TaskId, f: FileId): Result {
    if !Visible(s, owner, t) then Result(s, NotFound) else
    var c := s.tasks[t];
    if c.status != Uploading then Result(s, FrozenOutcome(c))
    else
      var i := Find(c.files, StagedInput(f), 0);
      if i == |c.files| then Result(s, FileMissing)
      else
        Result(QuietStep(s, t, c.(files := c.files[i := c.files[i].(state := Tombstone)]), s.next), Done)
  }

  function NewRound(id: RoundId, source: MessageId): Round {
    Round(id, source, RPending, None, 0, 0)
  }

  /** Freeze the input, charge its bytes to the user and the platform, and
      queue the first round. */
  function Commit(s: State, owner: UserId, t: TaskId): Result {
    if !Visible(s, owner, t) then Result(s, NotFound) else
    var b := BooksOf(s, t);
    var c := b.cell;
    if c.status != Uploading then Result(s, FrozenOutcome(c)) else
    var n := LiveSize(c.files, Input);
    if b.usage.storage + n > QuotaOf(s, owner).maxStorage || b.storage + n > s.maxStorage
        then Result(s, StorageExceeded)
    else if c.initial == None then Result(s, InvalidTransition)
    else
      Result(Put(s, t, Books(CommittedCell(c, s.next), b.usage.(storage := b.usage.storage + n), b.storage + n,
          b.slots)).(next := s.next + 1), Done)
  }

  function Send(s: State, owner: UserId, t: TaskId, textOk: bool): Result {
    if !Visible(s, owner, t) then Result(s, NotFound) else
    var c := s.tasks[t];
    if HasOpen(c.rounds) then Result(s, RoundBusy)
    else if c.status != Ready then Result(s, InvalidTransition)
    else if !textOk then Result(s, InvalidInput)
    else
      Result(QuietStep(s, t, Sent(c, s.next, s.next + 1), s.next + 2), Done)
  }

  // The user's endings.

  function RequestTerminal(s: State, t: TaskId, terminal: Terminal): Result
    requires t in s.tasks
  {
    var c := s.tasks[t];
    if !HasOpen(c.rounds) then Result(s, Unchanged)
    else
      Result(QuietStep(s, t, Cancelling(c, terminal), s.next), Requested)
  }

  function ReasonFor(terminal: Terminal): Option<Reason> {
    if terminal == ToAborted then Some(UserCancel) else None
  }

  /** abort_task and complete_task. */
  function Finish(s: State, owner: UserId, t: TaskId, terminal: Terminal): Result
    requires terminal != ToDeleted
  {
    if !Visible(s, owner, t) then Result(s, NotFound) else
    var c := s.tasks[t];
    match c.status
    case Running => RequestTerminal(s, t, terminal)
    case Queued => TierStep(s, t, Closed(Turn(c, StatusOf(terminal), ReasonFor(terminal)), ReasonFor(terminal)), s.next)
    case Ready => TierStep(s, t, Turn(c, StatusOf(terminal), ReasonFor(terminal)), s.next)
    case _ => Result(s, InvalidTransition)
  }

  function Delete(s: State, owner: UserId, t: TaskId): Result {
    if !Visible(s, owner, t) then Result(s, NotFound) else
    var c := s.tasks[t];
    if c.status == Running then TierStep(s, t, Move(Cancelling(c, ToDeleted), Deleted), s.next)
    else TierStep(s, t, Closed(Move(c, Deleted), None), s.next)
  }

  // The dispatcher.

  function Claim(s: State, t: TaskId, rid: RoundId, iid: Instance): Result {
    if t !in s.tasks || !LastIs(s.tasks[t].rounds, rid, RPending) then Result(s, Dropped) else
    var b := BooksOf(s, t);
    var c := b.cell;
    var k := FirstFree(b.slots, 0);
    if b.usage.running >= QuotaOf(s, c.owner).maxRunning || k == |b.slots| then Result(s, Dropped)
    else
      Result(Put(s, t, ClaimedBooks(b, t, iid)), Done)
  }

  function Reclaim(s: State, t: TaskId, rid: RoundId, lo: Option<Instance>, le: nat): Result {
    if t !in s.tasks || !LastUnder(s.tasks[t].rounds, rid, lo, le) then Result(s, Dropped)
    else TierStep(s, t, Reclaimed(s.tasks[t]), s.next)
  }

  function CancelRound(s: State, t: TaskId, rid: RoundId): Result {
    if t !in s.tasks || !LastIs(s.tasks[t].rounds, rid, RCancelling) then Result(s, Dropped)
    else TierStep(s, t, Collected(s.tasks[t]), s.next)
  }

  function SweepUpload(s: State, t: TaskId): Result {
    if t !in s.tasks || s.tasks[t].status != Uploading then Result(s, Dropped)
    else TierStep(s, t, Turn(s.tasks[t], Failed, Some(UploadExpired)), s.next)
  }

  /** The unlocked read of the terminal sweep. */
  function ListEnded(s: State, t: TaskId): Result {
    if t in s.tasks && !Unfinished(s.tasks[t].status) then Result(s.(ended := s.ended + {t}), Done)
    else Result(s, Dropped)
  }

  /** The retention sweep clears the log and the rounds and gives everything
      back; it trusts its candidate list and reads no status. */
  function SweepEnded(s: State, t: TaskId): Result {
    if t !in s.ended || t !in s.tasks then Result(s, Dropped) else
    Result(Put(s, t, Give(t, BooksOf(s, t).(cell := Swept(s.tasks[t])), EVERY_KIND)), Done)
  }

  // The executor.

  function PersistFact(s: State, t: TaskId, rid: RoundId, iid: Instance, epoch: nat, author: Speaker): Result {
    if t !in s.tasks || !LastUnder(s.tasks[t].rounds, rid, Some(iid), epoch) then Result(s, Dropped)
    else
      Result(QuietStep(s, t, Say(s.tasks[t], MessageSaved(s.next, author, Some(rid))), s.next + 1), Done)
  }

  /** `tail` says that an unsaved assistant message is still to be written,
      `revoked` that the provider key no longer matches the task's snapshot. */
  function Settle(s: State, t: TaskId, rid: RoundId, iid: Instance, epoch: nat, tail: bool, revoked: bool): Result {
    if t !in s.tasks || !LastUnder(s.tasks[t].rounds, rid, Some(iid), epoch) then Result(s, Dropped)
    else TierStep(s, t, Settled(s.tasks[t], s.next, tail, revoked), s.next + if tail then 1 else 0)
  }

  function FailDeadline(s: State, t: TaskId, rid: RoundId, iid: Instance, epoch: nat): Result {
    if t !in s.tasks || !LastUnder(s.tasks[t].rounds, rid, Some(iid), epoch) then Result(s, Dropped)
    else TierStep(s, t, RoundLostCell(s.tasks[t]), s.next)
  }

  /** The unlocked read of the reconciler: running, an intent, no open round. */
  function ListDrained(s: State, t: TaskId): Result {
    if t in s.tasks && s.tasks[t].status == Running && s.tasks[t].pending.Some? && !HasOpen(s.tasks[t].rounds)
    then Result(s.(drained := s.drained + {(t, s.tasks[t].pending.value)}), Done)
    else Result(s, Dropped)
  }

  function Reconcile(s: State, t: TaskId, terminal: Terminal): Result {
    if (t, terminal) !in s.drained || t !in s.tasks || s.tasks[t].status != Running
        || s.tasks[t].pending != Some(terminal)
    then Result(s, Dropped)
    else TierStep(s, t, Reconciled(s.tasks[t], terminal), s.next)
  }

  /** The kill switch (ToolRevoked) and the suspension cascade (AdminSuspended). */
  function Stop(s: State, t: TaskId, reason: Reason): Result {
    if t !in s.tasks || s.tasks[t].status !in {Queued, Running} then Result(s, Dropped)
    else TierStep(s, t, Stopped(s.tasks[t], reason), s.next)
  }

  // Artifacts.

  /** Register an artifact under the round's epoch, replacing a live one of the
      same name, and move the charge from the old copy to the new. */
  function RegisterOutput(s: State, owner: UserId, t: TaskId, rid: RoundId, epoch: nat, name: string,
                          size: nat): Result {
    if !Visible(s, owner, t) then Result(s, NotFound) else
    var b := BooksOf(s, t);
    var c := b.cell;
    if !LastAtEpoch(c.rounds, rid, epoch) then Result(s, Rejected)
    else if !ValidName(name) then Result(s, InvalidInput) else
    var replaced := Replaced(c, name);
    if size > MAX_SINGLE_FILE_BYTES || LiveTotal(c.files) - replaced + size > MAX_TASK_BYTES
        then Result(s, FileLimit) else
    var user, platform := b.usage.storage - replaced + size, b.storage - replaced + size;
    if user > QuotaOf(s, owner).maxStorage || platform > s.maxStorage then Result(s, StorageExceeded)
    else
      Result(Put(s, t, Books(Registering(c, rid, name, size, s.next), b.usage.(storage := user), platform,
          b.slots)).(next := s.next + 1), Done)
  }

  // Provider revocation, account deletion, quota changes.

  predicate Unstarted(c: Cell, owner: UserId, p: ProviderId) {
    c.owner == owner && c.provider == p && c.status in {Uploading, Queued, Ready}
  }

  /** Fails one unstarted task. Every reservation is released, but the bytes
      stay on the user's and the platform's account. */
  function RevokeOne(s: State, owner: UserId, p: ProviderId, t: TaskId): State {
    if t !in s.tasks || !Unstarted(s.tasks[t], owner, p) then s else
    var c := s.tasks[t];
    var rs := c.reservations;
    var u := UsageOf(s, owner);
    s.(tasks := s.tasks[t := RevokedCell(c)],
       usage := s.usage[owner := u.(active := u.active - Held(rs, HoldActive))],
       unrefunded := s.unrefunded[owner := UnrefundedOf(s, owner) + Retained(rs)])
  }

  function RevokeBelow(s: State, owner: UserId, p: ProviderId, n: nat): State {
    if n == 0 then s else RevokeOne(RevokeBelow(s, owner, p, n - 1), owner, p, n - 1)
  }

  /** fail_unstarted_tasks: every unstarted task of one provider. */
  function RevokeProvider(s: State, owner: UserId, p: ProviderId): Result {
    Result(RevokeBelow(s, owner, p, s.next), Done)
  }

  predicate Owns(s: State, u: UserId, t: TaskId) {
    t in s.tasks && s.tasks[t].owner == u
  }

  function EvictSlots(s: State, u: UserId): (out: seq<Slot>)
    ensures |out| == |s.slots|
    ensures forall i | 0 <= i < |s.slots| ::
      out[i] == if s.slots[i].Leased? && Owns(s, u, s.slots[i].task) then Free else s.slots[i]
  {
    seq(|s.slots|, i requires 0 <= i < |s.slots| =>
      if s.slots[i].Leased? && Owns(s, u, s.slots[i].task) then Free else s.slots[i])
  }

  /** The account-deletion hook: nothing of the user is left but the bytes that
      were never refunded. */
  function DeleteAccount(s: State, u: UserId): Result {
    if forall t | t in s.tasks :: s.tasks[t].owner != u then Result(s, Unchanged)
    else
      Result(
        s.(tasks := map t | t in s.tasks && s.tasks[t].owner != u :: s.tasks[t],
           usage := s.usage[u := Usage(0, 0, UnrefundedOf(s, u))],
           storage := s.storage - (UsageOf(s, u).storage - UnrefundedOf(s, u)),
           slots := EvictSlots(s, u)),
        Done)
  }

  predicate ValidDimension(value: Option<int>) {
    value.Some? ==> value.value >= 0
  }

  /** At least one dimension, and none below zero. */
  predicate ValidChange(ch: QuotaChange) {
    && ch != QuotaChange(None, None, None, None)
    && ValidDimension(ch.daily) && ValidDimension(ch.active) && ValidDimension(ch.running) && ValidDimension(ch.storage)
  }

  function Dimension(change: Option<int>, before: nat): nat
    requires ValidDimension(change)
  {
    if change.Some? then change.value else before
  }

  /** The given dimensions over the row there is, or over the defaults. */
  function QuotaAfter(s: State, u: UserId, ch: QuotaChange): Quota
    requires ValidChange(ch)
  {
    var before := if u in s.quota then s.quota[u] else DEFAULT_QUOTA;
    Quota(Dimension(ch.daily, before.maxDaily), Dimension(ch.active, before.maxActive),
          Dimension(ch.running, before.maxRunning), Dimension(ch.storage, before.maxStorage))
  }

  /** An administrator's upsert of the quota row. */
  function SetQuota(s: State, u: UserId, ch: QuotaChange): Result {
    if !ValidChange(ch) then Result(s, InvalidInput)
    else Result(s.(quota := s.quota[u := QuotaAfter(s, u, ch)]), Done)
  }

  // Runs.

  datatype Action =
    | ACreate(owner: UserId, provider: ProviderId, day: int, admitted: bool, toolsOn: bool)
    | AUpload(owner: UserId, task: TaskId, uploads: seq<Upload>)
    | ADeleteFile(owner: UserId, task: TaskId, file: FileId)
    | ACommit(owner: UserId, task: TaskId)
    | ASend(owner: UserId, task: TaskId, textOk: bool)
    | AAbort(owner: UserId, task: TaskId)
    | AComplete(owner: UserId, task: TaskId)
    | ADelete(owner: UserId, task: TaskId)
    | AClaim(task: TaskId, rid: RoundId, iid: Instance)
    | AReclaim(task: TaskId, rid: RoundId, lo: Option<Instance>, le: nat)
    | ACancelRound(task: TaskId, rid: RoundId)
    | ASweepUpload(task: TaskId)
    | AListEnded(task: TaskId)
    | ASweepEnded(task: TaskId)
    | APersistFact(task: TaskId, rid: RoundId, iid: Instance, epoch: nat, author: Speaker)
    | ASettle(task: TaskId, rid: RoundId, iid: Instance, epoch: nat, tail: bool, revoked: bool)
    | AFailDeadline(task: TaskId, rid: RoundId, iid: Instance, epoch: nat)
    | AListDrained(task: TaskId)
    | AReconcile(task: TaskId, terminal: Terminal)
    | AKill(task: TaskId)
    | ASuspend(task: TaskId)
    | ARegisterOutput(owner: UserId, task: TaskId, rid: RoundId, epoch: nat, name: string, size: nat)
    | ARevokeProvider(owner: UserId, provider: ProviderId)
    | ADeleteAccount(owner: UserId)
    | ASetQuota(owner: UserId, change: QuotaChange)

  function Apply(s: State, a: Action): Result {
    match a
    case ACreate(o, p, d, ok, tools) => Create(s, o, p, d, ok, tools)
    case AUpload(o, t, ups) => UploadFiles(s, o, t, ups)
    case ADeleteFile(o, t, f) => DeleteFile(s, o, t, f)
    case ACommit(o, t) => Commit(s, o, t)
    case ASend(o, t, ok) => Send(s, o, t, ok)
    case AAbort(o, t) => Finish(s, o, t, ToAborted)
    case AComplete(o, t) => Finish(s, o, t, ToCompleted)
    case ADelete(o, t) => Delete(s, o, t)
    case AClaim(t, r, i) => Claim(s, t, r, i)
    case AReclaim(t, r, lo, le) => Reclaim(s, t, r, lo, le)
    case ACancelRound(t, r) => CancelRound(s, t, r)
    case ASweepUpload(t) => SweepUpload(s, t)
    case AListEnded(t) => ListEnded(s, t)
    case ASweepEnded(t) => SweepEnded(s, t)
    case APersistFact(t, r, i, e, au) => PersistFact(s, t, r, i, e, au)
    case ASettle(t, r, i, e, tail, rev) => Settle(s, t, r, i, e, tail, rev)
    case AFailDeadline(t, r, i, e) => FailDeadline(s, t, r, i, e)
    case AListDrained(t) => ListDrained(s, t)
    case AReconcile(t, term) => Reconcile(s, t, term)
    case AKill(t) => Stop(s, t, ToolRevoked)
    case ASuspend(t) => Stop(s, t, AdminSuspended)
    case ARegisterOutput(o, t, r, e, n, sz) => RegisterOutput(s, o, t, r, e, n, sz)
    case ARevokeProvider(o, p) => RevokeProvider(s, o, p)
    case ADeleteAccount(u) => DeleteAccount(s, u)
    case ASetQuota(u, ch) => SetQuota(s, u, ch)
  }

  /** An empty database with the given slots and platform allowance. */
  function Init(slotCount: nat, maxStorage: nat): State {
    State(map[], map[], map[], map[], 0, maxStorage, seq(slotCount, _ => Free), 0, map[], {}, {})
  }

  function Run(s: State, actions: seq<Action>): State {
    if actions == [] then s
    else Apply(Run(s, actions[..|actions| - 1]), actions[|actions| - 1]).state
  }
}
