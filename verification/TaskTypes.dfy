/** The rows of the task domain. Every table that hangs off `tasks` by an
    ON DELETE CASCADE key is kept inside the task's own `Cell`, so that
    "WHERE task_id = :t" is the scope of one cell. */
module TaskTypes {

  datatype Option<+T> = None | Some(value: T)

  type TaskId = nat
  type RoundId = nat
  type MessageId = nat
  type FileId = nat
  type UserId = nat
  type ProviderId = nat
  type Instance = nat

  datatype Status = Uploading | Queued | Running | Ready | Completed | Failed | Aborted | Deleted

  datatype Reason = UserCancel | RoundLost | UploadExpired | KeyRevoked | ToolRevoked | AdminSuspended

  /** The values of tasks.pending_terminal. */
  datatype Terminal = ToCompleted | ToAborted | ToDeleted

  datatype RoundState = RPending | RRunning | RCancelling | RSettled | RFailed | RCancelled

  datatype Round = Round(
    id: RoundId,
    source: MessageId,
    state: RoundState,
    leaseOwner: Option<Instance>,
    epoch: nat,
    attempt: nat)

  datatype Kind = HoldActive | HoldRunning | HoldRoot | HoldCopy

  /** A task_reservations row; `held` is false once it is released. */
  datatype Reservation = Reservation(kind: Kind, file: Option<FileId>, bytes: nat, held: bool)

  datatype Direction = Input | Output

  datatype FileState = Staged | Committed | Registered | Tombstone

  /** A task_files row. Names are compared in NFC form; `name` is that form. */
  datatype File = File(
    id: FileId,
    direction: Direction,
    name: string,
    size: nat,
    state: FileState,
    producedIn: Option<RoundId>)

  datatype Author = ByUser | ByAssistant | ByTool

  /** Who says what happens in a round: the assistant or a tool, never the user. */
  type Speaker = a: Author | a != ByUser witness ByAssistant

  datatype EventBody =
    | MessageSaved(message: MessageId, author: Author, inRound: Option<RoundId>)
    | StatusChanged(status: Status, reason: Option<Reason>)
    | RoundQueued(queued: RoundId, after: Option<nat>)
    | RoundRunning(started: RoundId, attempt: nat)
    | RoundSettled(settled: RoundId, attempt: nat)
    | RoundFailed(failed: RoundId, attempt: nat)
    | RoundCancelled(cancelled: Option<RoundId>, cause: Option<Reason>)

  datatype Event = Event(sequence: nat, body: EventBody)

  datatype Message = Message(id: MessageId, sequence: nat, author: Author)

  /** tasks.event_sequence with the task_events and task_messages rows. */
  datatype Log = Log(sequence: nat, events: seq<Event>, messages: seq<Message>)

  datatype Cell = Cell(
    owner: UserId,
    provider: ProviderId,
    status: Status,
    reason: Option<Reason>,
    pending: Option<Terminal>,
    initial: Option<MessageId>,
    committed: bool,
    rounds: seq<Round>,
    reservations: seq<Reservation>,
    files: seq<File>,
    log: Log)

  /** A user_quota_usage row. */
  datatype Usage = Usage(active: int, running: int, storage: int)

  /** A user_quotas row. */
  datatype Quota = Quota(maxDaily: nat, maxActive: nat, maxRunning: nat, maxStorage: nat)

  /** A quota update: each dimension is given or left as it is. */
  datatype QuotaChange = QuotaChange(daily: Option<int>, active: Option<int>, running: Option<int>,
                                     storage: Option<int>)

  datatype Slot = Free | Leased(task: TaskId)

  predicate Unfinished(s: Status) {
    s in {Uploading, Queued, Running, Ready}
  }

  predicate OpenState(s: RoundState) {
    s in {RPending, RRunning, RCancelling}
  }

  function StatusOf(t: Terminal): Status {
    match t
    case ToCompleted => Completed
    case ToAborted => Aborted
    case ToDeleted => Deleted
  }
}
