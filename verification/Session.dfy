/** One transaction on one task: the rows it has locked, the statements it may
    issue against them, and what each statement changes. Nothing is written
    back unless the caller commits. */
module Sessions {
  import opened TaskTypes
  import opened Holdings
  import opened Rounds
  import opened Protocol

  /** A unique index on live reservations would fire on this row. */
  predicate Collides(rs: seq<Reservation>, r: Reservation) {
    if r.kind == HoldCopy then r.file.Some? && HeldCopies(rs, r.file.value) > 0
    else Held(rs, r.kind) > 0
  }

  class Session {
    const task: TaskId
    const quota: Quota
    const platformMax: nat

    /** The tasks row with the rows that hang off it. */
    var row: Cell
    /** The owner's user_quota_usage row. */
    var usage: Usage
    /** platform_storage and platform_slots. */
    var platform: int
    var slots: seq<Slot>
    /** The source of fresh ids, and how many errors were logged. */
    var next: nat
    var alarms: nat

    constructor (t: TaskId, c: Cell, u: Usage, q: Quota, platform: int, platformMax: nat, slots: seq<Slot>, next: nat)
      ensures task == t && quota == q && this.platformMax == platformMax
      ensures Rows() == Books(c, u, platform, slots) && this.next == next && alarms == 0
    {
      this.task, this.quota, this.platformMax := t, q, platformMax;
      this.row, this.usage, this.platform, this.slots := c, u, platform, slots;
      this.next, this.alarms := next, 0;
    }

    ghost function Rows(): Books
      reads this
    {
      Books(row, usage, platform, slots)
    }

    // Statements on task_rounds.

    /** SET ch WHERE g RETURNING */
    method UpdateRounds(g: Guard, ch: Change) returns (rows: seq<Round>)
      modifies `row
      ensures rows == Updated(old(row).rounds, g, ch)
      ensures row == old(row).(rounds := UpdateWhere(old(row).rounds, g, ch))
    {
      rows := Updated(row.rounds, g, ch);
      row := row.(rounds := UpdateWhere(row.rounds, g, ch));
    }

    /** INSERT under one_active_round_per_task and round_source_message; the
        precondition says that neither fires. */
    method AddRound(r: Round)
      requires OnlyLastOpen(row.rounds) && !HasOpen(row.rounds)
      requires forall i | 0 <= i < |row.rounds| :: row.rounds[i].source != r.source
      modifies `row
      ensures row == old(row).(rounds := old(row).rounds + [r])
    {
      row := row.(rounds := row.rounds + [r]);
    }

    // Statements on tasks.

    /** SET status = to WHERE status IN from */
    method FlipStatus(from: set<Status>, to: Status) returns (rowcount: nat)
      modifies `row
      ensures rowcount == if old(row).status in from then 1 else 0
      ensures row == if old(row).status in from then old(row).(status := to) else old(row)
    {
      if row.status in from {
        row := row.(status := to);
        return 1;
      }
      return 0;
    }

    /** SET status = to, abort_reason = why WHERE status IN from */
    method EndTask(from: set<Status>, to: Status, why: Option<Reason>) returns (rowcount: nat)
      modifies `row
      ensures rowcount == if old(row).status in from then 1 else 0
      ensures row == if old(row).status in from then old(row).(status := to, reason := why) else old(row)
    {
      if row.status in from {
        row := row.(status := to, reason := why);
        return 1;
      }
      return 0;
    }

    /** SET status = to, abort_reason = why, pending_terminal = NULL
        WHERE status IN from */
    method CloseTask(from: set<Status>, to: Status, why: Option<Reason>) returns (rowcount: nat)
      modifies `row
      ensures rowcount == if old(row).status in from then 1 else 0
      ensures row == if old(row).status in from then old(row).(status := to, reason := why, pending := None)
          else old(row)
    {
      if row.status in from {
        row := row.(status := to, reason := why, pending := None);
        return 1;
      }
      return 0;
    }

    /** SET pending_terminal = terminal WHERE status = 'running' */
    method SetIntent(terminal: Terminal) returns (rowcount: nat)
      modifies `row
      ensures rowcount == if old(row).status == Running then 1 else 0
      ensures row == if old(row).status == Running then old(row).(pending := Some(terminal)) else old(row)
    {
      if row.status == Running {
        row := row.(pending := Some(terminal));
        return 1;
      }
      return 0;
    }

    // Events and messages.

    /** event_sequence = event_sequence + count RETURNING: the first of the batch. */
    method AllocateEventSequence(count: nat) returns (first: nat)
      requires count > 0
      modifies `row
      ensures row == old(row).(log := old(row).log.(sequence := old(row).log.sequence + count))
      ensures first == old(row).log.sequence + 1
    {
      row := row.(log := row.log.(sequence := row.log.sequence + count));
      first := row.log.sequence - count + 1;
    }

    method AddEvent(n: nat, body: EventBody)
      modifies `row
      ensures row == old(row).(log := old(row).log.(events := old(row).log.events + [Event(n, body)]))
    {
      row := row.(log := row.log.(events := row.log.events + [Event(n, body)]));
    }

    method AddMessage(mid: MessageId, n: nat, author: Author)
      modifies `row
      ensures row == old(row).(log := old(row).log.(messages := old(row).log.messages + [Message(mid, n, author)]))
    {
      row := row.(log := row.log.(messages := row.log.messages + [Message(mid, n, author)]));
    }

    method NewId() returns (id: nat)
      modifies `next
      ensures id == old(next) && next == old(next) + 1
    {
      id := next;
      next := next + 1;
    }

    method Announce(body: EventBody)
      requires !body.MessageSaved?
      modifies `row
      ensures row == Say(old(row), body)
    {
      var n := AllocateEventSequence(1);
      AddEvent(n, body);
    }

    /** Two events out of one batch of sequences. */
    method AnnounceTwo(first: EventBody, second: EventBody)
      requires !first.MessageSaved? && !second.MessageSaved?
      modifies `row
      ensures row == Say(Say(old(row), first), second)
    {
      var n := AllocateEventSequence(2);
      AddEvent(n, first);
      AddEvent(n + 1, second);
    }

    /** One event, and a second one only if there is one to tell. */
    method AnnounceWith(first: EventBody, second: Option<EventBody>)
      requires !first.MessageSaved? && (second.Some? ==> !second.value.MessageSaved?)
      modifies `row
      ensures row == if second.Some? then Say(Say(old(row), first), second.value) else Say(old(row), first)
    {
      var n := AllocateEventSequence(1 + if second.Some? then 1 else 0);
      AddEvent(n, first);
      if second.Some? {
        AddEvent(n + 1, second.value);
      }
    }

    /** A message row and its message_saved event, under one sequence. */
    method SaveMessage(author: Author, inRound: Option<RoundId>) returns (mid: MessageId)
      modifies `row, `next
      ensures mid == old(next) && next == old(next) + 1
      ensures row == Say(old(row), MessageSaved(mid, author, inRound))
    {
      var n := AllocateEventSequence(1);
      mid := NewId();
      AddMessage(mid, n, author);
      AddEvent(n, MessageSaved(mid, author, inRound));
    }

    // Reservations, quotas and slots.

    /** INSERT under the partial unique indexes on live reservations; the
        precondition says that none of them fires. */
    method AddReservation(r: Reservation)
      requires r.held && !Collides(row.reservations, r)
      modifies `row
      ensures row == Hold(old(row), r.kind, r.file, r.bytes)
    {
      row := row.(reservations := row.reservations + [r]);
    }

    /** state = 'released' WHERE state = 'held' AND p RETURNING */
    method ReleaseReservations(p: Pick) returns (rows: seq<Reservation>)
      modifies `row
      ensures rows == Returned(old(row).reservations, p)
      ensures row == old(row).(reservations := Release(old(row).reservations, p))
    {
      rows := Returned(row.reservations, p);
      row := row.(reservations := Release(row.reservations, p));
    }

    /** running_tasks + 1 WHERE running_tasks < max_running_tasks */
    method TakeRunning() returns (rowcount: nat)
      modifies `usage
      ensures rowcount == if old(usage).running < quota.maxRunning then 1 else 0
      ensures usage == old(usage).(running := old(usage).running + rowcount)
    {
      if usage.running < quota.maxRunning {
        usage := usage.(running := usage.running + 1);
        return 1;
      }
      return 0;
    }

    /** The free slot with the lowest number is leased to the task. */
    method LeaseSlot() returns (rowcount: nat)
      modifies `slots
      ensures var k := FirstFree(old(slots), 0);
              if k < |old(slots)| then rowcount == 1 && slots == old(slots)[k := Leased(task)]
              else rowcount == 0 && slots == old(slots)
    {
      var k := FirstFree(slots, 0);
      if k == |slots| { return 0; }
      slots := slots[k := Leased(task)];
      return 1;
    }

    /** retained_storage_bytes + n, on both accounts, each WHERE within its limit. */
    method ChargeStorage(n: nat) returns (charged: bool)
      modifies `usage, `platform
      ensures charged <==> old(usage).storage + n <= quota.maxStorage && old(platform) + n <= platformMax
      ensures charged ==> usage == old(usage).(storage := old(usage).storage + n) && platform == old(platform) + n
    {
      if usage.storage + n > quota.maxStorage { return false; }
      usage := usage.(storage := usage.storage + n);
      if platform + n > platformMax { return false; }
      platform := platform + n;
      return true;
    }
  }
}
