/** What holds of every reachable database, and what one step may do to a task. */
module Invariant {
  import opened TaskTypes
  import opened Holdings
  import opened EventLog
  import opened FileRules
  import opened Rounds
  import opened Protocol
  import MapSum

  // One task.

  /** A slot is occupied while a round of a running task is open. */
  predicate Occupies(rounds: seq<Round>, status: Status) {
    status == Running && HasOpen(rounds)
  }

  ghost predicate HoldsOk(rs: seq<Reservation>, status: Status, occupies: bool, bound: nat) {
    && Held(rs, HoldActive) == (if Unfinished(status) then 1 else 0)
    && Held(rs, HoldRunning) == (if occupies then 1 else 0)
    && Held(rs, HoldRoot) <= 1
    && (status in {Queued, Running, Ready} ==> Held(rs, HoldRoot) == 1)
    && (status in {Uploading, Deleted} ==> Held(rs, HoldRoot) == 0)
    && HeldBytes(rs, HoldActive) == 0
    && HeldBytes(rs, HoldRunning) == 0
    && (forall f: FileId :: HeldCopies(rs, f) <= if f < bound then 1 else 0)
  }

  /** Retained bytes are the live files' bytes, in sum and copy by copy. */
  predicate Backed(rs: seq<Reservation>, files: seq<File>, status: Status) {
    && (status in {Uploading, Deleted} ==> Retained(rs) == 0)
    && (status in {Queued, Running, Ready} ==>
          && HeldBytes(rs, HoldRoot) == LiveSize(files, Input)
          && HeldBytes(rs, HoldCopy) == LiveSize(files, Output)
          && forall i | 0 <= i < |files| && Alive(files[i]) && files[i].direction == Output ::
               CopyBytes(rs, files[i].id) == files[i].size)
  }

  predicate RowOk(c: Cell, bound: nat) {
    && (c.status == Uploading ==> !c.committed && c.initial.Some? && c.initial.value < bound)
    && (c.status in {Queued, Running, Ready} ==> c.committed)
    && (Unfinished(c.status) ==> c.reason == None)
  }

  ghost predicate CellOk(c: Cell, bound: nat) {
    && RowOk(c, bound)
    && RoundsOk(c.rounds, c.status, c.pending, bound)
    && HoldsOk(c.reservations, c.status, Occupies(c.rounds, c.status), bound)
    && Backed(c.reservations, c.files, c.status)
    && FilesOk(c.files, c.committed, bound)
    && LogOk(c.log, Face(c.status, c.reason))
  }

  lemma CellOkLater(c: Cell, bound: nat, bound': nat)
    requires CellOk(c, bound) && bound <= bound'
    ensures CellOk(c, bound')
  {
  }

  // What one step may do to one task.

  /** VALID_TRANSITIONS. */
  function ValidTransitions(s: Status): set<Status> {
    match s
    case Uploading => {Queued, Failed, Deleted}
    case Queued => {Running, Completed, Aborted, Failed, Deleted}
    case Running => {Ready, Completed, Aborted, Failed, Deleted}
    case Ready => {Queued, Completed, Aborted, Failed, Deleted}
    case Completed => {Deleted}
    case Failed => {Deleted}
    case Aborted => {Deleted}
    case Deleted => {}
  }

  /** The edges steps take: the table, plus the requeue of a lost round. */
  predicate Edge(s: Status, s': Status) {
    s' == s || s' in ValidTransitions(s) || (s == Running && s' == Queued)
  }

  /** After the freeze, inputs stay as they are; only artifacts come and go. */
  predicate InputsFrozen(files: seq<File>, files': seq<File>) {
    && |files| <= |files'|
    && (forall i | 0 <= i < |files| ::
          && files'[i].direction == files[i].direction
          && (files[i].direction == Input ==> files'[i].(producedIn := None) == files[i].(producedIn := None)))
    && (forall i | |files| <= i < |files'| :: files'[i].direction == Output)
  }

  predicate CellStep(c: Cell, c': Cell, bound: nat) {
    && c'.owner == c.owner
    && c'.provider == c.provider
    && Edge(c.status, c'.status)
    && RoundsMove(c.rounds, c'.rounds, bound)
    && (Extends(c.log, c'.log) || (Cleared(c.log, c'.log) && !Unfinished(c.status)))
    && (c.committed ==> c'.committed && InputsFrozen(c.files, c'.files))
    && (c.status !in {Uploading, Queued, Ready} && !HasOpen(c.rounds) ==>
          !HasOpen(c'.rounds) && c'.status !in {Uploading, Queued, Ready})
  }

  // The whole database.

  datatype Meter = ActiveOf(user: UserId) | RunningOf(user: UserId) | StorageOf(user: UserId)

  function Weight(m: Meter, c: Cell): int {
    match m
    case ActiveOf(u) => if c.owner == u then Held(c.reservations, HoldActive) else 0
    case RunningOf(u) => if c.owner == u then Held(c.reservations, HoldRunning) else 0
    case StorageOf(u) => if c.owner == u then Retained(c.reservations) else 0
  }

  function Weights(tasks: map<TaskId, Cell>, m: Meter): map<nat, int> {
    map t | t in tasks :: Weight(m, tasks[t])
  }

  ghost function Sum(tasks: map<TaskId, Cell>, m: Meter): int {
    MapSum.Total(Weights(tasks, m))
  }

  function Charges(usage: map<UserId, Usage>): map<nat, int> {
    map u | u in usage :: usage[u].storage
  }

  /** A user's counters say what the user's reservations hold, up to the
      unrefunded bytes. */
  ghost predicate UserOk(tasks: map<TaskId, Cell>, u: UserId, x: Usage, unrefunded: nat) {
    && x.active == Sum(tasks, ActiveOf(u))
    && x.running == Sum(tasks, RunningOf(u))
    && x.storage == Sum(tasks, StorageOf(u)) + unrefunded
  }

  ghost predicate LedgerOk(s: State) {
    && (forall u | u in s.usage :: UserOk(s.tasks, u, s.usage[u], UnrefundedOf(s, u)))
    && s.storage == MapSum.Total(Charges(s.usage))
    && s.storage <= s.maxStorage
  }

  predicate HoldsSlot(s: State, t: TaskId) {
    t in s.tasks && Held(s.tasks[t].reservations, HoldRunning) == 1
  }

  /** Slots and held running reservations are in one-to-one correspondence. */
  predicate SlotsOk(s: State) {
    && (forall i | 0 <= i < |s.slots| && s.slots[i].Leased? :: HoldsSlot(s, s.slots[i].task))
    && (forall i, j | 0 <= i < j < |s.slots| && s.slots[i].Leased? && s.slots[j].Leased? ::
          s.slots[i].task != s.slots[j].task)
    && (forall t | t in s.tasks && HoldsSlot(s, t) :: Leased(t) in s.slots)
  }

  predicate ListsOk(s: State) {
    && (forall t | t in s.ended :: t < s.next && (t in s.tasks ==> !Unfinished(s.tasks[t].status)))
    && (forall p | p in s.drained :: p.0 < s.next && (p.0 in s.tasks ==>
          s.tasks[p.0].status !in {Uploading, Queued, Ready} && !HasOpen(s.tasks[p.0].rounds)))
  }

  ghost predicate TasksOk(s: State) {
    forall t | t in s.tasks ::
      t < s.next && CellOk(s.tasks[t], s.next) && s.tasks[t].owner in s.usage && s.tasks[t].owner in s.quota
  }

  predicate UsersOk(s: State) {
    && s.unrefunded.Keys <= s.usage.Keys
    && s.usage.Keys <= s.quota.Keys
  }

  ghost predicate Inv(s: State) {
    && TasksOk(s)
    && UsersOk(s)
    && LedgerOk(s)
    && SlotsOk(s)
    && ListsOk(s)
  }

  /** What one step may do to the database. */
  predicate Evolves(s: State, s': State) {
    && s.next <= s'.next
    && |s'.slots| == |s.slots|
    && s'.maxStorage == s.maxStorage
    && s.ended <= s'.ended && s.drained <= s'.drained
    && (forall t | t in s.tasks && t in s'.tasks :: CellStep(s.tasks[t], s'.tasks[t], s.next))
    && (forall t | t in s'.tasks && t !in s.tasks ::
          s.next <= t && s'.tasks[t].status == Uploading && s'.tasks[t].rounds == [])
    && (forall u | u in s.usage :: u in s'.usage)
  }
}
