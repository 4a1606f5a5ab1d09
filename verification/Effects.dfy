/** What each transaction decides and leaves behind, in the terms of the tables:
    the order of its refusals, the columns it sets, the rows it adds, the events
    it appends and the reservations it releases; everything else is unchanged. */
module Effects {
  import opened TaskTypes
  import opened Holdings
  import opened EventLog
  import opened FileRules
  import opened Rounds
  import opened Protocol

  /** The log gained these events, with the next sequences, and these messages. */
  predicate Says(log: Log, log': Log, bodies: seq<EventBody>, messages: seq<Message>) {
    && log'.sequence == log.sequence + |bodies|
    && |log'.events| == |log.events| + |bodies|
    && log'.events[..|log.events|] == log.events
    && (forall i | 0 <= i < |bodies| ::
          log'.events[|log.events| + i] == Event(log.sequence + 1 + i, bodies[i]))
    && log'.messages == log.messages + messages
  }

  /** The held reservations of these kinds were released, and no others. */
  predicate Released(rs: seq<Reservation>, rs': seq<Reservation>, kinds: set<Kind>) {
    && |rs'| == |rs|
    && forall i | 0 <= i < |rs| ::
         rs'[i] == if rs[i].kind in kinds then rs[i].(held := false) else rs[i]
  }

  /** Nothing changed but one task and the accounts. */
  predicate OnTask(s: State, s': State, t: TaskId, ids: nat) {
    && t in s.tasks && t in s'.tasks
    && s' == s.(tasks := s.tasks[t := s'.tasks[t]], usage := s'.usage, storage := s'.storage, slots := s'.slots,
                next := s.next + ids)
  }

  /** ... and not the accounts. */
  predicate OnTaskAlone(s: State, s': State, t: TaskId, ids: nat) {
    OnTask(s, s', t, ids) && s'.usage == s.usage && s'.storage == s.storage && s'.slots == s.slots
  }

  predicate Own(s: State, owner: UserId, t: TaskId) {
    t in s.tasks && s.tasks[t].owner == owner && s.tasks[t].status != Deleted
  }

  /** Why an input that has left uploading cannot change. */
  function Frozen(c: Cell): Outcome {
    if !c.committed && c.status in {Completed, Failed, Aborted} then InvalidTransition else InputCommitted
  }

  lemma {:induction false} ReleasedBy(rs: seq<Reservation>, kinds: set<Kind>)
    ensures Released(rs, Release(rs, OfKinds(kinds)), kinds)
  {
    if rs == [] {
    } else {
      ReleasedBy(rs[..|rs| - 1], kinds);
    }
  }

  predicate Newest(c: Cell, rid: RoundId, state: RoundState) {
    |c.rounds| > 0 && c.rounds[|c.rounds| - 1].id == rid && c.rounds[|c.rounds| - 1].state == state
  }

  /** The round that a lease names is the task's newest, and runs under it. */
  predicate Leases(s: State, t: TaskId, rid: RoundId, iid: Instance, epoch: nat) {
    t in s.tasks && |s.tasks[t].rounds| > 0 &&
    var r := s.tasks[t].rounds[|s.tasks[t].rounds| - 1];
    r.id == rid && r.state == RRunning && r.leaseOwner == Some(iid) && r.epoch == epoch
  }

  /** The tier of reservations that the task's status gives up. */
  function Tiered(status: Status): set<Kind> {
    match status
    case Deleted => {HoldActive, HoldRunning, HoldRoot, HoldCopy}
    case Completed => {HoldActive, HoldRunning}
    case Failed => {HoldActive, HoldRunning}
    case Aborted => {HoldActive, HoldRunning}
    case _ => {HoldRunning}
  }

  /** Ending a transaction on a task: the edited row, less its tier. */
  lemma TierEffect(s: State, t: TaskId, c: Cell, ids: nat)
    requires t in s.tasks
    ensures var r := TierStep(s, t, c, s.next + ids);
            && r.outcome == Done && OnTask(s, r.state, t, ids)
            && r.state.tasks[t] == c.(reservations := r.state.tasks[t].reservations)
            && Released(c.reservations, r.state.tasks[t].reservations, Tiered(c.status))
  {
    hide FreeSlots, HeldIf, BytesIf, Release;
    ReleasedBy(c.reservations, Tier(c.status));
    assert Tier(c.status) == Tiered(c.status);
  }

  // The user's transactions.

  lemma RefusingTask(s: State, owner: UserId, provider: ProviderId, day: int, admitted: bool, toolsOn: bool)
    ensures var quota := if owner in s.quota then s.quota[owner] else Quota(5, 3, 1, 1024 * 1024 * 1024);
            var used := if owner in s.usage then s.usage[owner] else Usage(0, 0, 0);
            var started := if (owner, day) in s.daily then s.daily[(owner, day)] else 0;
            Apply(s, ACreate(owner, provider, day, admitted, toolsOn)).outcome ==
              if !admitted then InvalidInput
              else if started >= quota.maxDaily then DailyExceeded
              else if used.active >= quota.maxActive then ActiveExceeded
              else if !toolsOn then ToolDisabled
              else Done
  {
    hide NewCell;
  }

  /** A new task: uploading, with its first message and its active reservation,
      counted for the user and the day. */
  lemma CreatingTask(s: State, owner: UserId, provider: ProviderId, day: int, admitted: bool, toolsOn: bool)
    ensures var r := Apply(s, ACreate(owner, provider, day, admitted, toolsOn));
            var quota := if owner in s.quota then s.quota[owner] else Quota(5, 3, 1, 1024 * 1024 * 1024);
            var used := if owner in s.usage then s.usage[owner] else Usage(0, 0, 0);
            var started := if (owner, day) in s.daily then s.daily[(owner, day)] else 0;
            r.outcome == Done ==>
              r.state == s.(
                tasks := s.tasks[s.next := Cell(
                  owner, provider, Uploading, None, None, Some(s.next + 1), false, [],
                  [Reservation(HoldActive, None, 0, true)], [],
                  Log(1, [Event(1, MessageSaved(s.next + 1, ByUser, None))], [Message(s.next + 1, 1, ByUser)]))],
                usage := s.usage[owner := used.(active := used.active + 1)],
                quota := s.quota[owner := quota],
                daily := s.daily[(owner, day) := started + 1],
                next := s.next + 2)
  {
    hide Emit, NewCell;
    var e, r := Ensure(s, owner), Apply(s, ACreate(owner, provider, day, admitted, toolsOn));
    var used := if owner in s.usage then s.usage[owner] else Usage(0, 0, 0);
    if r.outcome == Done {
      assert r.state.usage == s.usage[owner := used.(active := used.active + 1)];
      assert r.state.quota == s.quota[owner := e.quota[owner]];
      FirstCell(owner, provider, s.next + 1);
    }
  }

  lemma FirstCell(owner: UserId, provider: ProviderId, mid: MessageId)
    ensures NewCell(owner, provider, mid) == Cell(
              owner, provider, Uploading, None, None, Some(mid), false, [],
              [Reservation(HoldActive, None, 0, true)], [],
              Log(1, [Event(1, MessageSaved(mid, ByUser, None))], [Message(mid, 1, ByUser)]))
  {
  }

  lemma Committing(s: State, owner: UserId, t: TaskId)
    ensures !Own(s, owner, t) ==> Apply(s, ACommit(owner, t)).outcome == NotFound
    ensures Own(s, owner, t) ==>
              var c, bytes := s.tasks[t], LiveSize(s.tasks[t].files, Input);
              Apply(s, ACommit(owner, t)).outcome ==
                if c.status != Uploading then Frozen(c)
                else if UsageOf(s, owner).storage + bytes > QuotaOf(s, owner).maxStorage
                        || s.storage + bytes > s.maxStorage then StorageExceeded
                else if c.initial == None then InvalidTransition
                else Done
    ensures var r := Apply(s, ACommit(owner, t));
            r.outcome == Done ==>
              var c, c', bytes := s.tasks[t], r.state.tasks[t], LiveSize(s.tasks[t].files, Input);
              && OnTask(s, r.state, t, 1) && r.state.slots == s.slots
              && c' == c.(status := Queued, committed := true, files := c'.files, log := c'.log,
                          rounds := c.rounds + [Round(s.next, c.initial.value, RPending, None, 0, 0)],
                          reservations := c.reservations + [Reservation(HoldRoot, None, bytes, true)])
              && |c'.files| == |c.files|
              && (forall i | 0 <= i < |c.files| ::
                    c'.files[i] == if c.files[i].state == Staged then c.files[i].(state := Committed) else c.files[i])
              && Says(c.log, c'.log, [StatusChanged(Queued, None), RoundQueued(s.next, None)], [])
              && UsageOf(r.state, owner) == UsageOf(s, owner).(storage := UsageOf(s, owner).storage + bytes)
              && r.state.storage == s.storage + bytes
  {
    hide LiveSize;
  }

  lemma SentCell(c: Cell, mid: MessageId, rid: RoundId)
    ensures var c' := Sent(c, mid, rid);
            && c' == c.(status := Queued, log := c'.log,
                        rounds := c.rounds + [Round(rid, mid, RPending, None, 0, 0)])
            && Says(c.log, c'.log,
                    [MessageSaved(mid, ByUser, None), StatusChanged(Queued, None), RoundQueued(rid, None)],
                    [Message(mid, c.log.sequence + 1, ByUser)])
  {
  }

  lemma Sending(s: State, owner: UserId, t: TaskId, textOk: bool)
    ensures var r := Apply(s, ASend(owner, t, textOk));
            && r.outcome == (if !Own(s, owner, t) then NotFound
                             else if HasOpen(s.tasks[t].rounds) then RoundBusy
                             else if s.tasks[t].status != Ready then InvalidTransition
                             else if !textOk then InvalidInput
                             else Done)
            && (r.outcome == Done ==>
                  var c, c', mid, rid := s.tasks[t], r.state.tasks[t], s.next, s.next + 1;
                  && OnTaskAlone(s, r.state, t, 2)
                  && c' == c.(status := Queued, log := c'.log,
                              rounds := c.rounds + [Round(rid, mid, RPending, None, 0, 0)])
                  && Says(c.log, c'.log,
                          [MessageSaved(mid, ByUser, None), StatusChanged(Queued, None), RoundQueued(rid, None)],
                          [Message(mid, c.log.sequence + 1, ByUser)]))
  {
    hide Sent, Says;
    if t in s.tasks { SentCell(s.tasks[t], s.next, s.next + 1); }
  }

  /** A batch of uploads is staged whole or refused: by its names, which no live
      input may share, or by what the task would hold with it. */
  lemma StagingFiles(s: State, owner: UserId, t: TaskId, uploads: seq<Upload>)
    ensures !Own(s, owner, t) ==> Apply(s, AUpload(owner, t, uploads)).outcome == NotFound
    ensures Own(s, owner, t) ==>
              var c, all := s.tasks[t], Stage(s.tasks[t].files, uploads, s.next);
              Apply(s, AUpload(owner, t, uploads)).outcome ==
                if c.status != Uploading then Frozen(c)
                else if uploads == [] || (exists u :: u in uploads && !ValidName(u.name)) || Clash(c.files, uploads)
                  then InvalidInput
                else if LiveCount(all, Input) > 10 || (exists u :: u in uploads && u.size > 5 * 1024 * 1024)
                        || LiveSize(all, Input) + LiveSize(all, Output) > 10 * 1024 * 1024 then FileLimit
                else Done
  {
    hide ValidName, LiveSize, LiveCount, UploadBytes;
    if t in s.tasks {
      StageTotals(s.tasks[t].files, uploads, s.next);
      ClashIs(s.tasks[t].files, uploads);
    }
    hide BatchNamesOk;
  }

  lemma StagedFiles(s: State, owner: UserId, t: TaskId, uploads: seq<Upload>)
    ensures var r := Apply(s, AUpload(owner, t, uploads));
            r.outcome == Done ==>
              var c, c' := s.tasks[t], r.state.tasks[t];
              && OnTaskAlone(s, r.state, t, |uploads|)
              && c' == c.(files := c'.files) && |c'.files| == |c.files| + |uploads|
              && c'.files[..|c.files|] == c.files
              && forall i | 0 <= i < |uploads| ::
                   c'.files[|c.files| + i] == File(s.next + i, Input, uploads[i].name, uploads[i].size, Staged, None)
  {
    hide ValidName, LiveSize, LiveCount, UploadBytes, BatchNamesOk, BatchWithinLimits;
  }

  /** Two uploads of one name, or one of a live input's. */
  predicate Clash(files: seq<File>, uploads: seq<Upload>) {
    || (exists i, j :: 0 <= i < j < |uploads| && uploads[i].name == uploads[j].name)
    || (exists i, f :: 0 <= i < |uploads| && f in files && f.direction == Input && f.state != Tombstone
                       && f.name == uploads[i].name)
  }

  lemma ClashIs(files: seq<File>, uploads: seq<Upload>)
    ensures Clash(files, uploads) <==> !BatchNamesOk(files, uploads)
  {
    if i, f :| 0 <= i < |uploads| && f in files && f.direction == Input && f.state != Tombstone
               && f.name == uploads[i].name
    {
      var k :| 0 <= k < |files| && files[k] == f;
      assert NameTaken(files, Input, uploads[i].name);
    }
  }

  /** The two unlocked reads only remember what they found. */
  lemma Listing(s: State, t: TaskId)
    ensures var r := Apply(s, AListEnded(t));
            && r.outcome == (if t in s.tasks && s.tasks[t].status in {Completed, Failed, Aborted, Deleted}
                             then Done else Dropped)
            && r.state == if r.outcome == Done then s.(ended := s.ended + {t}) else s
    ensures var r := Apply(s, AListDrained(t));
            && r.outcome == (if t in s.tasks && s.tasks[t].status == Running && s.tasks[t].pending.Some?
                                && !HasOpen(s.tasks[t].rounds)
                             then Done else Dropped)
            && r.state == if r.outcome == Done then s.(drained := s.drained + {(t, s.tasks[t].pending.value)}) else s
  {
    hide HasOpen;
    if t in s.tasks { EndsAreFour(s.tasks[t].status); }
  }

  lemma EndsAreFour(status: Status)
    ensures !Unfinished(status) <==> status in {Completed, Failed, Aborted, Deleted}
  {
    match status
    case Uploading =>
    case Queued =>
    case Running =>
    case Ready =>
    case Completed =>
    case Failed =>
    case Aborted =>
    case Deleted =>
  }

  /** A file name is one component of a path: not empty, at most 255 characters,
      no separator, no control character, and not a directory's own name. */
  lemma NameRule(name: string)
    ensures ValidName(name) <==>
              && 1 <= |name| <= 255 && name !in {".", ".."}
              && forall c | c in name :: c !in {'/', '\\'} && c as int >= 32 && !(127 <= c as int <= 159)
  {
    if ValidName(name) {
      forall c | c in name ensures c !in {'/', '\\'} && c as int >= 32 && !(127 <= c as int <= 159) {
        var i :| 0 <= i < |name| && name[i] == c;
      }
    } else if 1 <= |name| <= 255 && name !in {".", ".."} {
      var i :| 0 <= i < |name| && (Control(name[i]) || name[i] == '/' || name[i] == '\\');
      assert name[i] in name;
    }
  }

  lemma DeletingFile(s: State, owner: UserId, t: TaskId, f: FileId)
    ensures var r := Apply(s, ADeleteFile(owner, t, f));
            && (r.outcome == NotFound <==> !Own(s, owner, t))
            && (Own(s, owner, t) && s.tasks[t].status == Uploading ==>
                  var files := s.tasks[t].files;
                  r.outcome == if exists i :: 0 <= i < |files| && files[i].id == f && files[i].direction == Input
                                              && files[i].state == Staged
                               then Done else FileMissing)
            && (Own(s, owner, t) && s.tasks[t].status != Uploading ==> r.outcome == Frozen(s.tasks[t]))
            && (r.outcome == Done ==>
                  var c, c' := s.tasks[t], r.state.tasks[t];
                  && OnTaskAlone(s, r.state, t, 0) && c' == c.(files := c'.files)
                  && exists i :: 0 <= i < |c.files| && c.files[i].id == f && c.files[i].direction == Input
                                 && c.files[i].state == Staged
                                 && c'.files == c.files[i := c.files[i].(state := Tombstone)])
  {
  }

  lemma EndedCell(c: Cell, status: Status, reason: Option<Reason>)
    ensures var c', n := Closed(Turn(c, status, reason), reason), |c.rounds| - 1;
            && c' == c.(status := status, reason := reason, log := c'.log,
                        rounds := if HasOpen(c.rounds) then c.rounds[n := c.rounds[n].(state := RCancelled)]
                            else c.rounds)
            && Says(c.log, c'.log,
                    [StatusChanged(status, reason)]
                    + if HasOpen(c.rounds) then [RoundCancelled(None, reason)] else [], [])
  {
  }

  lemma TurnedCell(c: Cell, status: Status, reason: Option<Reason>)
    ensures var c' := Turn(c, status, reason);
            && c' == c.(status := status, reason := reason, log := c'.log)
            && Says(c.log, c'.log, [StatusChanged(status, reason)], [])
  {
  }

  /** Asking for a task's end, by abort or by complete: a running one has its
      round cancelled first and remembers what was asked. */
  lemma AskingToEnd(s: State, owner: UserId, t: TaskId, abort: bool)
    ensures var r := Apply(s, if abort then AAbort(owner, t) else AComplete(owner, t));
            && r.outcome == (if !Own(s, owner, t) then NotFound
                             else if s.tasks[t].status == Running
                               then if HasOpen(s.tasks[t].rounds) then Requested else Unchanged
                             else if s.tasks[t].status in {Queued, Ready} then Done
                             else InvalidTransition)
            && (r.outcome == Requested ==>
                  var c, c', n := s.tasks[t], r.state.tasks[t], |s.tasks[t].rounds| - 1;
                  && OnTaskAlone(s, r.state, t, 0)
                  && c' == c.(rounds := c.rounds[n := c.rounds[n].(state := RCancelling)],
                              pending := Some(if abort then ToAborted else ToCompleted)))
  {
    hide Turn, Closed, GiveTier;
  }

  /** ... and one that waits, queued or ready, ends at once and as asked. */
  lemma EndingAtOnce(s: State, owner: UserId, t: TaskId, abort: bool)
    requires Own(s, owner, t) && s.tasks[t].status in {Queued, Ready}
    requires s.tasks[t].status == Ready ==> !HasOpen(s.tasks[t].rounds)
    ensures var r := Apply(s, if abort then AAbort(owner, t) else AComplete(owner, t));
            var status, reason := if abort then Aborted else Completed, if abort then Some(UserCancel) else None;
            var c, n := s.tasks[t], |s.tasks[t].rounds| - 1;
            && r.outcome == Done && OnTask(s, r.state, t, 0)
            && var c' := r.state.tasks[t];
               && c' == c.(status := status, reason := reason, reservations := c'.reservations, log := c'.log,
                           rounds := if HasOpen(c.rounds) then c.rounds[n := c.rounds[n].(state := RCancelled)]
                                     else c.rounds)
               && Released(c.reservations, c'.reservations, Tiered(c'.status))
               && Says(c.log, c'.log,
                       [StatusChanged(status, reason)]
                       + if HasOpen(c.rounds) then [RoundCancelled(None, reason)] else [], [])
  {
    hide Turn, Closed, TierStep, Says, Released, HasOpen;
    var c := s.tasks[t];
    var status, reason := if abort then Aborted else Completed, if abort then Some(UserCancel) else None;
    if c.status == Queued {
      EndedCell(c, status, reason);
      TierEffect(s, t, Closed(Turn(c, status, reason), reason), 0);
    } else {
      TurnedCell(c, status, reason);
      TierEffect(s, t, Turn(c, status, reason), 0);
      assert [StatusChanged(status, reason)] + [] == [StatusChanged(status, reason)];
    }
  }

  lemma DeletedCell(c: Cell)
    ensures var n := |c.rounds| - 1;
            var c' := if c.status == Running then Move(Cancelling(c, ToDeleted), Deleted)
                      else Closed(Move(c, Deleted), None);
            var open, running := HasOpen(c.rounds), c.status == Running;
            && c' == c.(status := Deleted, log := c'.log, pending := if running then Some(ToDeleted) else c.pending,
                        rounds := if open
                                  then c.rounds[n := c.rounds[n].(
                                                 state := if running then RCancelling else RCancelled)]
                                  else c.rounds)
            && Says(c.log, c'.log,
                    [StatusChanged(Deleted, None)] + if open && !running then [RoundCancelled(None, None)] else [], [])
  {
  }

  /** Deleting always works, and gives every reservation back. */

  lemma Deleting(s: State, owner: UserId, t: TaskId)
    ensures var r := Apply(s, ADelete(owner, t));
            && r.outcome == (if Own(s, owner, t) then Done else NotFound)
            && (r.outcome == Done ==>
                  var c, c', n := s.tasks[t], r.state.tasks[t], |s.tasks[t].rounds| - 1;
                  var open, running := HasOpen(c.rounds), c.status == Running;
                  && OnTask(s, r.state, t, 0)
                  && c' == c.(status := Deleted, reservations := c'.reservations, log := c'.log,
                              pending := if running then Some(ToDeleted) else c.pending,
                              rounds := if open
                                        then c.rounds[n := c.rounds[n].(
                                                 state := if running then RCancelling else RCancelled)]
                                        else c.rounds)
                  && Released(c.reservations, c'.reservations, Tiered(c'.status))
                  && Says(c.log, c'.log,
                          [StatusChanged(Deleted, None)]
                          + if open && !running then [RoundCancelled(None, None)] else [], []))
  {
    hide Move, Cancelling, Closed, TierStep, Says, Released;
    if t in s.tasks {
      var c := s.tasks[t];
      DeletedCell(c);
      TierEffect(s, t, if c.status == Running then Move(Cancelling(c, ToDeleted), Deleted)
                       else Closed(Move(c, Deleted), None), 0);
    }
  }

  // The dispatcher's transactions.

  lemma ClaimedCell(c: Cell, iid: Instance)
    requires |c.rounds| > 0
    ensures var c', n, before := Claimed(c, iid), |c.rounds| - 1, c.rounds[|c.rounds| - 1];
            && c' == c.(status := Running, log := c'.log,
                        rounds := c.rounds[n := Round(before.id, before.source, RRunning, Some(iid), before.epoch + 1,
                                                      before.attempt + 1)],
                        reservations := c.reservations + [Reservation(HoldRunning, None, 0, true)])
            && Says(c.log, c'.log, [StatusChanged(Running, None), RoundRunning(before.id, before.attempt + 1)], [])
  {
  }

  lemma Claiming(s: State, t: TaskId, rid: RoundId, iid: Instance)
    ensures Apply(s, AClaim(t, rid, iid)).outcome ==
              if t in s.tasks && Newest(s.tasks[t], rid, RPending) && Free in s.slots
                 && UsageOf(s, s.tasks[t].owner).running < QuotaOf(s, s.tasks[t].owner).maxRunning
              then Done else Dropped
    ensures var r := Apply(s, AClaim(t, rid, iid));
            r.outcome == Done ==>
              var c, c', n := s.tasks[t], r.state.tasks[t], |s.tasks[t].rounds| - 1;
              var before, owner := c.rounds[n], s.tasks[t].owner;
              && OnTask(s, r.state, t, 0) && r.state.storage == s.storage
              && c' == c.(status := Running, log := c'.log,
                          rounds := c.rounds[n := Round(rid, before.source, RRunning, Some(iid), before.epoch + 1,
                                                        before.attempt + 1)],
                          reservations := c.reservations + [Reservation(HoldRunning, None, 0, true)])
              && Says(c.log, c'.log, [StatusChanged(Running, None), RoundRunning(rid, before.attempt + 1)], [])
              && UsageOf(r.state, owner) == UsageOf(s, owner).(running := UsageOf(s, owner).running + 1)
              && exists k :: 0 <= k < |s.slots| && s.slots[k] == Free && r.state.slots == s.slots[k := Leased(t)]
                             && forall j | 0 <= j < k :: s.slots[j] != Free
  {
    hide Claimed, Says;
    FirstIsFirst(s.slots, 0);
    if t in s.tasks && |s.tasks[t].rounds| > 0 { ClaimedCell(s.tasks[t], iid); }
  }

  lemma ReclaimedCell(c: Cell)
    requires |c.rounds| > 0
    ensures var c', n := Reclaimed(c), |c.rounds| - 1;
            var round := c.rounds[n];
            var again := round.attempt < 3;
            && c' == c.(status := if again then Queued else Failed, log := c'.log,
                        reason := if again then c.reason else Some(RoundLost),
                        rounds := c.rounds[n := round.(leaseOwner := None,
                                                       state := if again then RPending else RFailed)])
            && Says(c.log, c'.log,
                    if again then [StatusChanged(Queued, None), RoundQueued(round.id, Some(round.attempt))]
                    else [StatusChanged(Failed, Some(RoundLost)), RoundFailed(round.id, round.attempt)], [])
  {
  }

  /** A lost lease: back into the queue with the round as it was, or, from the
      third attempt on, failed for good. */

  lemma Reclaiming(s: State, t: TaskId, rid: RoundId, owner: Option<Instance>, epoch: nat)
    ensures Apply(s, AReclaim(t, rid, owner, epoch)).outcome ==
              if owner.Some? && Leases(s, t, rid, owner.value, epoch) then Done else Dropped
    ensures var r := Apply(s, AReclaim(t, rid, owner, epoch));
            r.outcome == Done ==>
              var c, c', n := s.tasks[t], r.state.tasks[t], |s.tasks[t].rounds| - 1;
              var round := c.rounds[n];
              var again := round.attempt < 3;
              && OnTask(s, r.state, t, 0)
              && c' == c.(status := if again then Queued else Failed,
                          reason := if again then c.reason else Some(RoundLost),
                          reservations := c'.reservations, log := c'.log,
                          rounds := c.rounds[n := round.(leaseOwner := None,
                                                         state := if again then RPending else RFailed)])
              && Released(c.reservations, c'.reservations, Tiered(c'.status))
              && Says(c.log, c'.log,
                      if again then [StatusChanged(Queued, None), RoundQueued(rid, Some(round.attempt))]
                      else [StatusChanged(Failed, Some(RoundLost)), RoundFailed(rid, round.attempt)], [])
  {
    hide Reclaimed, TierStep, Says, Released;
    if t in s.tasks && |s.tasks[t].rounds| > 0 {
      ReclaimedCell(s.tasks[t]);
      TierEffect(s, t, Reclaimed(s.tasks[t]), 0);
    }
  }

  lemma CollectedCell(c: Cell)
    requires |c.rounds| > 0
    ensures var c', n := Collected(c), |c.rounds| - 1;
            && c' == c.(log := c'.log,
                        rounds := c.rounds[n := c.rounds[n].(state := RCancelled, leaseOwner := None)])
            && Says(c.log, c'.log, [RoundCancelled(Some(c.rounds[n].id), None)], [])
  {
  }

  lemma Collecting(s: State, t: TaskId, rid: RoundId)
    ensures var r := Apply(s, ACancelRound(t, rid));
            && r.outcome == (if t in s.tasks && Newest(s.tasks[t], rid, RCancelling) then Done else Dropped)
            && (r.outcome == Done ==>
                  var c, c', n := s.tasks[t], r.state.tasks[t], |s.tasks[t].rounds| - 1;
                  && OnTask(s, r.state, t, 0)
                  && c' == c.(reservations := c'.reservations, log := c'.log,
                              rounds := c.rounds[n := c.rounds[n].(state := RCancelled, leaseOwner := None)])
                  && Released(c.reservations, c'.reservations, Tiered(c'.status))
                  && Says(c.log, c'.log, [RoundCancelled(Some(rid), None)], []))
  {
    hide Collected, TierStep, Says, Released;
    if t in s.tasks && |s.tasks[t].rounds| > 0 {
      CollectedCell(s.tasks[t]);
      TierEffect(s, t, Collected(s.tasks[t]), 0);
    }
  }

  lemma ExpiringUpload(s: State, t: TaskId)
    ensures var r := Apply(s, ASweepUpload(t));
            && r.outcome == (if t in s.tasks && s.tasks[t].status == Uploading then Done else Dropped)
            && (r.outcome == Done ==>
                  var c, c' := s.tasks[t], r.state.tasks[t];
                  && OnTask(s, r.state, t, 0)
                  && c' == c.(status := Failed, reason := Some(UploadExpired), reservations := c'.reservations,
                              log := c'.log)
                  && Released(c.reservations, c'.reservations, Tiered(c'.status))
                  && Says(c.log, c'.log, [StatusChanged(Failed, Some(UploadExpired))], []))
  {
    hide Turn, TierStep, Says, Released;
    if t in s.tasks {
      TurnedCell(s.tasks[t], Failed, Some(UploadExpired));
      TierEffect(s, t, Turn(s.tasks[t], Failed, Some(UploadExpired)), 0);
    }
  }

  /** Retention: events, messages and rounds go, the row and its files stay. */
  lemma SweepingEnded(s: State, t: TaskId)
    ensures Apply(s, ASweepEnded(t)).outcome == if t in s.ended && t in s.tasks then Done else Dropped
    ensures var r := Apply(s, ASweepEnded(t));
            r.outcome == Done ==>
              var c, c' := s.tasks[t], r.state.tasks[t];
              && OnTask(s, r.state, t, 0)
              && c' == c.(rounds := [], initial := None, files := c'.files, reservations := c'.reservations,
                          log := Log(c.log.sequence, [], []))
              && Released(c.reservations, c'.reservations, {HoldActive, HoldRunning, HoldRoot, HoldCopy})
              && |c'.files| == |c.files|
              && forall i | 0 <= i < |c.files| :: c'.files[i] == c.files[i].(producedIn := None)
  {
    hide FreeSlots, HeldIf, Release, BytesIf;
    if t in s.tasks { ReleasedBy(s.tasks[t].reservations, {HoldActive, HoldRunning, HoldRoot, HoldCopy}); }
  }

  // The executor's transactions.

  lemma SavingFact(s: State, t: TaskId, rid: RoundId, iid: Instance, epoch: nat, author: Speaker)
    ensures var r := Apply(s, APersistFact(t, rid, iid, epoch, author));
            && r.outcome == (if Leases(s, t, rid, iid, epoch) then Done else Dropped)
            && (r.outcome == Done ==>
                  var c, c' := s.tasks[t], r.state.tasks[t];
                  && OnTaskAlone(s, r.state, t, 1) && c' == c.(log := c'.log)
                  && Says(c.log, c'.log, [MessageSaved(s.next, author, Some(rid))],
                          [Message(s.next, c.log.sequence + 1, author)]))
  {
  }

  lemma SettledCell(c: Cell, mid: MessageId, tail: bool, revoked: bool)
    requires |c.rounds| > 0
    ensures var c', n := Settled(c, mid, tail, revoked), |c.rounds| - 1;
            var status, reason := if revoked then Aborted else Ready, if revoked then Some(KeyRevoked) else None;
            && c' == c.(status := status, reason := reason, log := c'.log,
                        rounds := c.rounds[n := c.rounds[n].(state := RSettled)])
            && Says(c.log, c'.log,
                    (if tail then [MessageSaved(mid, ByAssistant, Some(c.rounds[n].id))] else [])
                    + [RoundSettled(c.rounds[n].id, c.rounds[n].attempt), StatusChanged(status, reason)],
                    if tail then [Message(mid, c.log.sequence + 1, ByAssistant)] else [])
  {
  }

  /** A settle saves the answer that is still missing, reports the round, and
      leaves the task ready, or aborted if its key is gone. */

  lemma Settling(s: State, t: TaskId, rid: RoundId, iid: Instance, epoch: nat, tail: bool, revoked: bool)
    ensures var r := Apply(s, ASettle(t, rid, iid, epoch, tail, revoked));
            && r.outcome == (if Leases(s, t, rid, iid, epoch) then Done else Dropped)
            && (r.outcome == Done ==>
                  var c, c', n := s.tasks[t], r.state.tasks[t], |s.tasks[t].rounds| - 1;
                  var status, reason := if revoked then Aborted else Ready, if revoked then Some(KeyRevoked) else None;
                  && OnTask(s, r.state, t, if tail then 1 else 0)
                  && c' == c.(status := status, reason := reason, reservations := c'.reservations, log := c'.log,
                              rounds := c.rounds[n := c.rounds[n].(state := RSettled)])
                  && Released(c.reservations, c'.reservations, Tiered(c'.status))
                  && Says(c.log, c'.log,
                          (if tail then [MessageSaved(s.next, ByAssistant, Some(rid))] else [])
                          + [RoundSettled(rid, c.rounds[n].attempt), StatusChanged(status, reason)],
                          if tail then [Message(s.next, c.log.sequence + 1, ByAssistant)] else []))
  {
    hide Settled, TierStep, Says, Released;
    if t in s.tasks && |s.tasks[t].rounds| > 0 {
      SettledCell(s.tasks[t], s.next, tail, revoked);
      TierEffect(s, t, Settled(s.tasks[t], s.next, tail, revoked), if tail then 1 else 0);
    }
  }

  lemma LostCell(c: Cell)
    requires |c.rounds| > 0
    ensures var c', n := RoundLostCell(c), |c.rounds| - 1;
            && c' == c.(status := Failed, reason := Some(RoundLost), log := c'.log,
                        rounds := c.rounds[n := c.rounds[n].(state := RFailed, leaseOwner := None)])
            && Says(c.log, c'.log,
                    [StatusChanged(Failed, Some(RoundLost)), RoundFailed(c.rounds[n].id, c.rounds[n].attempt)], [])
  {
  }

  lemma FailingDeadline(s: State, t: TaskId, rid: RoundId, iid: Instance, epoch: nat)
    ensures var r := Apply(s, AFailDeadline(t, rid, iid, epoch));
            && r.outcome == (if Leases(s, t, rid, iid, epoch) then Done else Dropped)
            && (r.outcome == Done ==>
                  var c, c', n := s.tasks[t], r.state.tasks[t], |s.tasks[t].rounds| - 1;
                  && OnTask(s, r.state, t, 0)
                  && c' == c.(status := Failed, reason := Some(RoundLost), reservations := c'.reservations,
                              log := c'.log,
                              rounds := c.rounds[n := c.rounds[n].(state := RFailed, leaseOwner := None)])
                  && Released(c.reservations, c'.reservations, Tiered(c'.status))
                  && Says(c.log, c'.log,
                          [StatusChanged(Failed, Some(RoundLost)), RoundFailed(rid, c.rounds[n].attempt)], []))
  {
    hide RoundLostCell, TierStep, Says, Released;
    if t in s.tasks && |s.tasks[t].rounds| > 0 {
      LostCell(s.tasks[t]);
      TierEffect(s, t, RoundLostCell(s.tasks[t]), 0);
    }
  }

  /** The reconciler ends a task as its intent says. */

  lemma Reconciling(s: State, t: TaskId, p: Terminal)
    ensures var r := Apply(s, AReconcile(t, p));
            && r.outcome == (if (t, p) in s.drained && t in s.tasks && s.tasks[t].status == Running
                                && s.tasks[t].pending == Some(p)
                             then Done else Dropped)
            && (r.outcome == Done && p != ToDeleted ==>
                  var c, c' := s.tasks[t], r.state.tasks[t];
                  var status, reason :=
                    if p == ToAborted then Aborted else Completed, if p == ToAborted then Some(UserCancel) else None;
                  && OnTask(s, r.state, t, 0)
                  && c' == c.(status := status, reason := reason, pending := None, reservations := c'.reservations,
                              log := c'.log)
                  && Released(c.reservations, c'.reservations, Tiered(c'.status))
                  && Says(c.log, c'.log, [StatusChanged(status, reason)], []))
  {
    hide Turn, TierStep, Says, Released;
    if t in s.tasks {
      var c := s.tasks[t].(pending := None);
      var status := if p == ToAborted then Aborted else Completed;
      var reason := if p == ToAborted then Some(UserCancel) else None;
      TurnedCell(c, status, reason);
      TierEffect(s, t, Reconciled(s.tasks[t], p), 0);
    }
  }

  lemma StoppedCell(c: Cell, why: Reason)
    ensures var c', n := Stopped(c, why), |c.rounds| - 1;
            var open := HasOpen(c.rounds);
            && c' == c.(status := Aborted, reason := Some(why), pending := None, log := c'.log,
                        rounds := if open then c.rounds[n := c.rounds[n].(state := RCancelled, leaseOwner := None)]
                                  else c.rounds)
            && Says(c.log, c'.log,
                    [StatusChanged(Aborted, Some(why))]
                    + if open then [RoundCancelled(Some(c.rounds[n].id), Some(why))] else [], [])
  {
  }

  /** The kill switch and the suspension: queued and running tasks are aborted,
      with whatever round is open. */

  lemma Stopping(s: State, t: TaskId, suspend: bool)
    ensures var r := Apply(s, if suspend then ASuspend(t) else AKill(t));
            var why := if suspend then AdminSuspended else ToolRevoked;
            && r.outcome == (if t in s.tasks && s.tasks[t].status in {Queued, Running} then Done else Dropped)
            && (r.outcome == Done ==>
                  var c, c', n := s.tasks[t], r.state.tasks[t], |s.tasks[t].rounds| - 1;
                  var open := HasOpen(c.rounds);
                  && OnTask(s, r.state, t, 0)
                  && c' == c.(status := Aborted, reason := Some(why), pending := None,
                              reservations := c'.reservations, log := c'.log,
                              rounds := if open
                                        then c.rounds[n := c.rounds[n].(state := RCancelled, leaseOwner := None)]
                                        else c.rounds)
                  && Released(c.reservations, c'.reservations, Tiered(c'.status))
                  && Says(c.log, c'.log,
                          [StatusChanged(Aborted, Some(why))]
                          + if open then [RoundCancelled(Some(c.rounds[n].id), Some(why))] else [], []))
  {
    hide Stopped, TierStep, Says, Released;
    if t in s.tasks {
      var why := if suspend then AdminSuspended else ToolRevoked;
      StoppedCell(s.tasks[t], why);
      TierEffect(s, t, Stopped(s.tasks[t], why), 0);
    }
  }

  // Artifacts.

  /** Where the live artifact of that name is, or -1. */
  predicate LiveAt(files: seq<File>, name: string, i: int) {
    if i == -1 then forall j | 0 <= j < |files| :: !IsLive(files[j], name)
    else 0 <= i < |files| && IsLive(files[i], name) && forall j | 0 <= j < i :: !IsLive(files[j], name)
  }

  predicate IsLive(f: File, name: string) {
    f.direction == Output && f.state != Tombstone && f.name == name
  }

  function WhereLive(files: seq<File>, name: string): (i: int)
    ensures LiveAt(files, name, i)
  {
    var k := Find(files, OutputNamed(name), 0);
    assert forall j | 0 <= j < k :: !Meets(OutputNamed(name), files[j]);
    if k < |files| then k else -1
  }

  /** Registering an artifact is refused net of the one it replaces. */
  lemma RefusingArtifact(s: State, owner: UserId, t: TaskId, rid: RoundId, epoch: nat, name: string, size: nat, i: int)
    requires Own(s, owner, t) ==> LiveAt(s.tasks[t].files, name, i)
    ensures !Own(s, owner, t) ==> Apply(s, ARegisterOutput(owner, t, rid, epoch, name, size)).outcome == NotFound
    ensures Own(s, owner, t) ==>
              var c := s.tasks[t];
              var delta := size - if i == -1 then 0 else c.files[i].size;
              Apply(s, ARegisterOutput(owner, t, rid, epoch, name, size)).outcome ==
                if !(Newest(c, rid, RRunning) && c.rounds[|c.rounds| - 1].epoch == epoch) then Rejected
                else if !ValidName(name) then InvalidInput
                else if size > 5 * 1024 * 1024
                        || LiveSize(c.files, Input) + LiveSize(c.files, Output) + delta > 10 * 1024 * 1024
                            then FileLimit
                else if UsageOf(s, owner).storage + delta > QuotaOf(s, owner).maxStorage
                        || s.storage + delta > s.maxStorage then StorageExceeded
                else Done
  {
    hide LiveSize, ValidName, Registering;
    if Own(s, owner, t) { FoundAt(s.tasks[t].files, name, i); }
  }

  lemma RegisteredCell(c: Cell, rid: RoundId, name: string, size: nat, fid: FileId, i: int)
    requires LiveAt(c.files, name, i)
    ensures var c', n := Registering(c, rid, name, size, fid), |c.reservations|;
            && c' == c.(files := c'.files, reservations := c'.reservations)
            && c'.files == (if i == -1 then c.files else c.files[i := c.files[i].(state := Tombstone)])
                           + [File(fid, Output, name, size, Registered, Some(rid))]
            && |c'.reservations| == n + 1
            && c'.reservations[n] == Reservation(HoldCopy, Some(fid), size, true)
            && (forall j | 0 <= j < n ::
                  c'.reservations[j] ==
                    if i != -1 && c.reservations[j].kind == HoldCopy && c.reservations[j].file == Some(c.files[i].id)
                    then c.reservations[j].(held := false) else c.reservations[j])
  {
    hide Release;
    FoundAt(c.files, name, i);
    if i >= 0 { CopyReleasedBy(c.reservations, c.files[i].id); }
  }

  /** Otherwise the replaced one becomes a tombstone with its copy released, the
      new row and its copy are added, and both accounts move by the difference. */
  lemma RegisteringArtifact(s: State, owner: UserId, t: TaskId, rid: RoundId, epoch: nat, name: string, size: nat,
                            i: int)
    requires Own(s, owner, t) ==> LiveAt(s.tasks[t].files, name, i)
    ensures var r := Apply(s, ARegisterOutput(owner, t, rid, epoch, name, size));
            r.outcome == Done ==>
              var c, c' := s.tasks[t], r.state.tasks[t];
              var delta, n := size - if i == -1 then 0 else c.files[i].size, |c.reservations|;
              && OnTask(s, r.state, t, 1) && r.state.slots == s.slots
              && c' == c.(files := c'.files, reservations := c'.reservations)
              && c'.files == (if i == -1 then c.files else c.files[i := c.files[i].(state := Tombstone)])
                             + [File(s.next, Output, name, size, Registered, Some(rid))]
              && |c'.reservations| == n + 1
              && c'.reservations[n] == Reservation(HoldCopy, Some(s.next), size, true)
              && (forall j | 0 <= j < n ::
                    c'.reservations[j] ==
                      if i != -1 && c.reservations[j].kind == HoldCopy && c.reservations[j].file == Some(c.files[i].id)
                      then c.reservations[j].(held := false) else c.reservations[j])
              && UsageOf(r.state, owner) == UsageOf(s, owner).(storage := UsageOf(s, owner).storage + delta)
              && r.state.storage == s.storage + delta
  {
    hide LiveSize, ValidName, Registering;
    if Own(s, owner, t) {
      FoundAt(s.tasks[t].files, name, i);
      RegisteredCell(s.tasks[t], rid, name, size, s.next, i);
    }
  }

  lemma FoundAt(files: seq<File>, name: string, i: int)
    requires LiveAt(files, name, i)
    ensures Find(files, OutputNamed(name), 0) == if i == -1 then |files| else i
  {
    var k := Find(files, OutputNamed(name), 0);
    if k < |files| { assert IsLive(files[k], name); }
  }

  lemma {:induction false} CopyReleasedBy(rs: seq<Reservation>, f: FileId)
    ensures var rs' := Release(rs, CopyFor(f));
            |rs'| == |rs| && forall i | 0 <= i < |rs| ::
              rs'[i] == if rs[i].kind == HoldCopy && rs[i].file == Some(f) then rs[i].(held := false) else rs[i]
  {
    if rs == [] {
    } else {
      CopyReleasedBy(rs[..|rs| - 1], f);
    }
  }

  // Revocation, accounts and quotas.

  predicate Waiting(c: Cell, owner: UserId, p: ProviderId) {
    c.owner == owner && c.provider == p && c.status in {Uploading, Queued, Ready}
  }

  /** How a revocation leaves a task that had not started. */
  predicate Revoked(c: Cell, c': Cell) {
    var n := |c.rounds| - 1;
    && c' == c.(status := Failed, reason := Some(KeyRevoked), reservations := c'.reservations, log := c'.log,
                rounds := if HasOpen(c.rounds) then c.rounds[n := c.rounds[n].(state := RCancelled)] else c.rounds)
    && Released(c.reservations, c'.reservations, {HoldActive, HoldRunning, HoldRoot, HoldCopy})
    && Says(c.log, c'.log,
            [StatusChanged(Failed, Some(KeyRevoked))]
            + if HasOpen(c.rounds) then [RoundCancelled(None, Some(KeyRevoked))] else [], [])
  }

  lemma RevokedOne(c: Cell)
    ensures Revoked(c, RevokedCell(c))
  {
    hide Closed, Turn, Says, Released, Release;
    var rs := Release(c.reservations, OfKinds(EVERY_KIND));
    ReleasedBy(c.reservations, EVERY_KIND);
    EndedCell(c.(reservations := rs), Failed, Some(KeyRevoked));
  }

  lemma {:induction false} RevokedBelow(s: State, owner: UserId, p: ProviderId, n: nat)
    ensures var s' := RevokeBelow(s, owner, p, n);
            s'.tasks.Keys == s.tasks.Keys && forall t | t in s.tasks ::
              if t < n && Waiting(s.tasks[t], owner, p) then Revoked(s.tasks[t], s'.tasks[t])
              else s'.tasks[t] == s.tasks[t]
  {
    hide RevokedCell, Revoked;
    if n == 0 {
    } else {
      RevokedBelow(s, owner, p, n - 1);
      var m := RevokeBelow(s, owner, p, n - 1);
      if n - 1 in m.tasks { RevokedOne(m.tasks[n - 1]); }
    }
  }

  /** A revocation fails every task of the owner and the provider that has not
      started, and touches no other: none is left that could start. */
  lemma Revoking(s: State, owner: UserId, p: ProviderId)
    requires forall t | t in s.tasks :: t < s.next
    ensures var r := Apply(s, ARevokeProvider(owner, p));
            && r.outcome == Done && r.state.tasks.Keys == s.tasks.Keys
            && (forall t | t in s.tasks ::
                  if Waiting(s.tasks[t], owner, p) then Revoked(s.tasks[t], r.state.tasks[t])
                  else r.state.tasks[t] == s.tasks[t])
            && (forall t | t in r.state.tasks :: !Waiting(r.state.tasks[t], owner, p))
  {
    hide RevokeBelow;
    RevokedBelow(s, owner, p, s.next);
  }

  /** The account hook takes the user's tasks and nobody else's. */
  lemma DeletingAccount(s: State, u: UserId)
    ensures var r := Apply(s, ADeleteAccount(u));
            && r.outcome == (if exists t :: t in s.tasks && s.tasks[t].owner == u then Done else Unchanged)
            && (forall t :: t in r.state.tasks <==> t in s.tasks && s.tasks[t].owner != u)
            && (forall t | t in r.state.tasks :: r.state.tasks[t] == s.tasks[t])
  {
  }

  /** A quota update sets the dimensions that are given, over the row or over
      the defaults. */
  lemma SettingQuota(s: State, u: UserId, ch: QuotaChange)
    ensures var r := Apply(s, ASetQuota(u, ch));
            var given := [ch.daily, ch.active, ch.running, ch.storage];
            var before := if u in s.quota then s.quota[u] else Quota(5, 3, 1, 1024 * 1024 * 1024);
            && r.outcome == (if (exists i :: 0 <= i < 4 && given[i].Some?)
                                && (forall i | 0 <= i < 4 && given[i].Some? :: given[i].value >= 0)
                             then Done else InvalidInput)
            && r.state == s.(quota := r.state.quota)
            && (r.outcome == Done ==>
                  && u in r.state.quota && r.state.quota == s.quota[u := r.state.quota[u]]
                  && var q := r.state.quota[u];
                     && q.maxDaily == (if ch.daily.Some? then ch.daily.value else before.maxDaily)
                     && q.maxActive == (if ch.active.Some? then ch.active.value else before.maxActive)
                     && q.maxRunning == (if ch.running.Some? then ch.running.value else before.maxRunning)
                     && q.maxStorage == (if ch.storage.Some? then ch.storage.value else before.maxStorage))
  {
    var given := [ch.daily, ch.active, ch.running, ch.storage];
    assert given[0] == ch.daily && given[1] == ch.active && given[2] == ch.running && given[3] == ch.storage;
    assert (exists i :: 0 <= i < 4 && given[i].Some?) <==> ch != QuotaChange(None, None, None, None);
  }
}
