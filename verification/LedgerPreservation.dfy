/** Preservation for the transactions that move a ledger up, clear a task, or
    touch several tasks at once. */
module LedgerPreservation {
  import opened TaskTypes
  import opened Holdings
  import opened EventLog
  import opened FileRules
  import opened Rounds
  import opened Protocol
  import opened Invariant
  import opened Conservation
  import opened Steps

  // Claim.

  lemma ClaimedLog(c: Cell, iid: Instance)
    requires |c.rounds| > 0 && c.status == Queued && c.reason == None
    requires LogOk(c.log, Face(c.status, c.reason))
    ensures var c', r := Claimed(c, iid), Last(c);
            && LogOk(c'.log, Face(Running, None)) && Extends(c.log, c'.log)
            && c'.(log := c.log) == c.(
                 status := Running,
                 rounds := c.rounds[|c.rounds| - 1 := r.(state := RRunning, leaseOwner := Some(iid),
                     epoch := r.epoch + 1, attempt := r.attempt + 1)],
                 reservations := c.reservations + [Reservation(HoldRunning, None, 0, true)])
  {
    hide LogOk, Emit;
    var r := Last(c);
    var c1 := Hold(SetLast(c, r.(state := RRunning, leaseOwner := Some(iid), epoch := r.epoch + 1,
        attempt := r.attempt + 1)), HoldRunning, None, 0);
    MoveOk(c1, Running);
    SayOk(Move(c1, Running), RoundRunning(r.id, r.attempt + 1));
  }

  lemma ClaimedHolds(c: Cell, bound: nat)
    requires c.status == Queued && HoldsOk(c.reservations, Queued, false, bound)
    requires Backed(c.reservations, c.files, Queued)
    ensures var rs := c.reservations + [Reservation(HoldRunning, None, 0, true)];
            HoldsOk(rs, Running, true, bound) && Backed(rs, c.files, Running)
  {
    HoldAdds(c.reservations, Reservation(HoldRunning, None, 0, true));
  }

  lemma ClaimedOk(c: Cell, iid: Instance, bound: nat)
    requires CellOk(c, bound) && |c.rounds| > 0 && Last(c).state == RPending
    ensures CellOk(Claimed(c, iid), bound) && CellStep(c, Claimed(c, iid), bound)
  {
    hide FilesOk, LogOk, Extends, HoldsOk, Backed;
    var r := Last(c);
    ClaimedLog(c, iid);
    hide Claimed;
    SetLastOk(c.rounds, r.(state := RRunning, leaseOwner := Some(iid), epoch := r.epoch + 1, attempt := r.attempt + 1),
              c.status, c.pending, Running, c.pending, bound, bound);
    hide RoundsOk, RoundsMove;
    ClaimedHolds(c, bound);
    assert InputsFrozen(c.files, c.files);
  }

  lemma ClaimBalanced(t: TaskId, b: Books, iid: Instance, k: nat)
    requires |b.cell.rounds| > 0 && k < |b.slots| && b.slots[k] == Free
    ensures Balanced(t, b, Books(Claimed(b.cell, iid), b.usage.(running := b.usage.running + 1), b.storage,
        b.slots[k := Leased(t)]))
  {
    hide Emit;
    HoldAdds(b.cell.reservations, Reservation(HoldRunning, None, 0, true));
  }

  lemma ClaimOk(s: State, t: TaskId, rid: RoundId, iid: Instance)
    requires Inv(s)
    ensures Good(s, Claim(s, t, rid, iid))
  {
    hide Inv, CellOk, CellStep, Claimed, Balanced, Evolves, Put;
    var r := Claim(s, t, rid, iid);
    if r.outcome != Done {
      StandsStill(s, r);
    } else {
      Known(s, t);
      var b := BooksOf(s, t);
      var k := FirstFree(b.slots, 0);
      ClaimedOk(b.cell, iid, s.next);
      ClaimBalanced(t, b, iid, k);
      var b' := Books(Claimed(b.cell, iid), b.usage.(running := b.usage.running + 1), b.storage,
          b.slots[k := Leased(t)]);
      PutOk(s, t, b', s.next);
      PutNext(s, t, b');
    }
  }

  lemma PutNext(s: State, t: TaskId, b: Books)
    ensures Put(s, t, b).(next := s.next) == Put(s, t, b)
  {
  }

  // Commit.

  lemma CommittedLog(c: Cell, rid: RoundId)
    requires c.initial.Some? && c.status == Uploading && c.reason == None
    requires LogOk(c.log, Face(c.status, c.reason))
    ensures var c' := CommittedCell(c, rid);
            && LogOk(c'.log, Face(Queued, None)) && Extends(c.log, c'.log)
            && c'.(log := c.log) == c.(
                 status := Queued, files := CommitStaged(c.files), committed := true,
                 rounds := c.rounds + [NewRound(rid, c.initial.value)],
                 reservations := c.reservations + [Reservation(HoldRoot, None, LiveSize(c.files, Input), true)])
  {
    hide LogOk, Emit;
    var c1 := Hold(c.(files := CommitStaged(c.files), committed := true,
                      rounds := c.rounds + [NewRound(rid, c.initial.value)]), HoldRoot, None, LiveSize(c.files, Input));
    MoveOk(c1, Queued);
    SayOk(Move(c1, Queued), RoundQueued(rid, None));
  }

  lemma CommittedOk(c: Cell, bound: nat)
    requires CellOk(c, bound) && c.status == Uploading
    ensures CellOk(CommittedCell(c, bound), bound + 1) && CellStep(c, CommittedCell(c, bound), bound)
  {
    hide LogOk, Extends, HoldsOk, Backed, FilesOk, InputsFrozen, RoundsMove;
    CommittedLog(c, bound);
    hide CommittedCell;
    AddRoundOk(c.rounds, NewRound(bound, c.initial.value), Uploading, bound, bound + 1);
    hide RoundsOk;
    CommitBacked(c, bound);
    CommitOk(c.files, bound);
    CommitFiles(c.files, bound);
  }

  lemma CommitFiles(files: seq<File>, bound: nat)
    requires FilesOk(CommitStaged(files), true, bound)
    ensures FilesOk(CommitStaged(files), true, bound + 1)
  {
  }

  lemma CommitBacked(c: Cell, bound: nat)
    requires FilesOk(c.files, false, bound) && c.status == Uploading
    requires HoldsOk(c.reservations, Uploading, false, bound) && Backed(c.reservations, c.files, Uploading)
    ensures var rs := c.reservations + [Reservation(HoldRoot, None, LiveSize(c.files, Input), true)];
            HoldsOk(rs, Queued, false, bound + 1) && Backed(rs, CommitStaged(c.files), Queued)
  {
    CommitOk(c.files, bound);
    SameSizes(c.files, CommitStaged(c.files));
    HoldAdds(c.reservations, Reservation(HoldRoot, None, LiveSize(c.files, Input), true));
  }

  lemma CommitBalanced(t: TaskId, b: Books, rid: RoundId)
    requires b.cell.initial.Some?
    ensures var n := LiveSize(b.cell.files, Input);
            Balanced(t, b, Books(CommittedCell(b.cell, rid), b.usage.(storage := b.usage.storage + n), b.storage + n,
                b.slots))
  {
    hide Emit, CommitStaged;
    HoldAdds(b.cell.reservations, Reservation(HoldRoot, None, LiveSize(b.cell.files, Input), true));
  }

  lemma CommitTaskOk(s: State, owner: UserId, t: TaskId)
    requires Inv(s)
    ensures Good(s, Commit(s, owner, t))
  {
    hide Inv, CellOk, CellStep, CommittedCell, Balanced, Evolves, Put;
    var r := Commit(s, owner, t);
    if r.outcome != Done {
      StandsStill(s, r);
    } else {
      Known(s, t);
      var b := BooksOf(s, t);
      var n := LiveSize(b.cell.files, Input);
      CommittedOk(b.cell, s.next);
      CommitBalanced(t, b, s.next);
      PutOk(s, t, Books(CommittedCell(b.cell, s.next), b.usage.(storage := b.usage.storage + n), b.storage + n,
          b.slots), s.next + 1);
    }
  }

  // Artifacts.

  predicate StoreOk(c: Cell, bound: nat) {
    && c.committed && c.status == Running
    && FilesOk(c.files, true, bound)
    && Backed(c.reservations, c.files, c.status)
  }

  /** Overwriting takes the old file's bytes off the ledger, no more, no less. */
  lemma RetireOk(c: Cell, i: nat, bound: nat)
    requires StoreOk(c, bound) && i < |c.files| && Alive(c.files[i]) && c.files[i].direction == Output
    requires HoldsOk(c.reservations, Running, true, bound)
    ensures StoreOk(Retired(c, i), bound)
    ensures HoldsOk(Retired(c, i).reservations, Running, true, bound)
    ensures Retained(Retired(c, i).reservations) == Retained(c.reservations) - c.files[i].size
    ensures LiveTotal(Retired(c, i).files) == LiveTotal(c.files) - c.files[i].size
  {
    ReleaseCopy(c.reservations, c.files[i].id);
    TombstoneOk(c.files, i, true, bound);
    ReplaceFile(c.files, i, c.files[i].(state := Tombstone));
    hide FilesOk;
  }

  lemma StoredOk(c: Cell, f: File, bound: nat)
    requires StoreOk(c, bound) && HoldsOk(c.reservations, Running, true, bound)
    requires f.id == bound && f.direction == Output && f.state == FileState.Registered
    requires f.size <= MAX_SINGLE_FILE_BYTES && LiveTotal(c.files) + f.size <= MAX_TASK_BYTES
    requires !NameTaken(c.files, Output, f.name)
    ensures StoreOk(Stored(c, f), bound + 1)
    ensures HoldsOk(Stored(c, f).reservations, Running, true, bound + 1)
    ensures Retained(Stored(c, f).reservations) == Retained(c.reservations) + f.size
  {
    RegisterOk(c.files, f, bound);
    StoredHolds(c.reservations, c.files, f, bound);
    hide FilesOk, HoldsOk, Backed;
  }

  lemma StoredHolds(rs: seq<Reservation>, files: seq<File>, f: File, bound: nat)
    requires HoldsOk(rs, Running, true, bound) && Backed(rs, files, Running)
    requires forall i | 0 <= i < |files| :: files[i].id < bound
    requires f.id == bound && f.direction == Output && f.state == FileState.Registered
    ensures var rs' := rs + [Reservation(HoldCopy, Some(f.id), f.size, true)];
            && HoldsOk(rs', Running, true, bound + 1) && Backed(rs', files + [f], Running)
            && Retained(rs') == Retained(rs) + f.size
  {
    NoCopies(rs, f.id);
    HoldAdds(rs, Reservation(HoldCopy, Some(f.id), f.size, true));
    AppendFile(files, f);
  }

  /** The row an output replaces is the only live one of its name. */
  lemma ReplacedName(files: seq<File>, name: string, i: nat)
    requires NamesDistinct(files) && i == Find(files, OutputNamed(name), 0)
    ensures if i < |files| then !NameTaken(files[i := files[i].(state := Tombstone)], Output, name)
            else !NameTaken(files, Output, name)
  {
    if i < |files| {
      assert forall j | 0 <= j < |files| && j != i ::
          Alive(files[j]) && files[j].direction == Output ==> files[j].name != name;
    }
  }

  predicate Fits(c: Cell, name: string, size: nat) {
    size <= MAX_SINGLE_FILE_BYTES && LiveTotal(c.files) - Replaced(c, name) + size <= MAX_TASK_BYTES
  }

  /** The store after a registration, for a cell whose row and rounds stay. */
  lemma RegisteringStore(c: Cell, rid: RoundId, name: string, size: nat, bound: nat)
    requires StoreOk(c, bound) && HoldsOk(c.reservations, Running, true, bound) && Fits(c, name, size)
    ensures var c' := Registering(c, rid, name, size, bound);
            && StoreOk(c', bound + 1) && HoldsOk(c'.reservations, Running, true, bound + 1)
            && Retained(c'.reservations) == Retained(c.reservations) - Replaced(c, name) + size
            && c'.(files := c.files, reservations := c.reservations) == c
  {
    var i := Find(c.files, OutputNamed(name), 0);
    assert NamesDistinct(c.files);
    ReplacedName(c.files, name, i);
    hide StoreOk, HoldsOk, NameTaken, FilesOk, Backed, Retained, LiveTotal;
    if i < |c.files| { RetireOk(c, i, bound); }
    StoredOk(if i < |c.files| then Retired(c, i) else c, File(bound, Output, name, size, FileState.Registered,
        Some(rid)), bound);
  }

  lemma RegisteringFrozen(c: Cell, rid: RoundId, name: string, size: nat, fid: FileId)
    ensures InputsFrozen(c.files, Registering(c, rid, name, size, fid).files)
  {
  }

  lemma RegisteringOk(c: Cell, rid: RoundId, name: string, size: nat, bound: nat)
    requires CellOk(c, bound) && c.status == Running && HasOpen(c.rounds) && Fits(c, name, size)
    ensures CellOk(Registering(c, rid, name, size, bound), bound + 1)
    ensures CellStep(c, Registering(c, rid, name, size, bound), bound)
  {
    hide LogOk, Backed, HoldsOk, FilesOk, Fits, Extends, InputsFrozen;
    RegisteringStore(c, rid, name, size, bound);
    RegisteringFrozen(c, rid, name, size, bound);
    hide Registering;
    CellStill(c, bound);
    RoundsOkLater(c.rounds, c.status, c.pending, bound);
    hide RoundsOk, RoundsMove;
  }

  lemma RoundsOkLater(rs: seq<Round>, status: Status, pending: Option<Terminal>, bound: nat)
    requires RoundsOk(rs, status, pending, bound)
    ensures RoundsOk(rs, status, pending, bound + 1)
  {
  }

  lemma UnderEpoch(c: Cell, rid: RoundId, epoch: nat, bound: nat)
    requires CellOk(c, bound) && LastAtEpoch(c.rounds, rid, epoch)
    ensures c.status == Running && HasOpen(c.rounds)
  {
    hide HoldsOk, FilesOk, LogOk, Backed;
  }

  lemma RegisteringBalanced(t: TaskId, b: Books, rid: RoundId, name: string, size: nat, bound: nat)
    requires CellOk(b.cell, bound) && b.cell.status == Running && HasOpen(b.cell.rounds) && Fits(b.cell, name, size)
    ensures var delta := size - Replaced(b.cell, name);
            Balanced(t, b, Books(Registering(b.cell, rid, name, size, bound),
                b.usage.(storage := b.usage.storage + delta), b.storage + delta, b.slots))
  {
    hide RoundsOk, LogOk, Fits, FilesOk, Backed;
    RegisteringStore(b.cell, rid, name, size, bound);
    hide Registering, Retained;
  }

  lemma RegisterOutputOk(s: State, owner: UserId, t: TaskId, rid: RoundId, epoch: nat, name: string, size: nat)
    requires Inv(s)
    ensures Good(s, RegisterOutput(s, owner, t, rid, epoch, name, size))
  {
    hide Inv, CellOk, CellStep, LiveTotal, Balanced, ValidName, Registering, Replaced, Evolves, Put, LastAtEpoch;
    var r := RegisterOutput(s, owner, t, rid, epoch, name, size);
    if r.outcome != Done {
      StandsStill(s, r);
    } else {
      Known(s, t);
      var b := BooksOf(s, t);
      UnderEpoch(b.cell, rid, epoch, s.next);
      var delta := size - Replaced(b.cell, name);
      RegisteringOk(b.cell, rid, name, size, s.next);
      RegisteringBalanced(t, b, rid, name, size, s.next);
      PutOk(s, t, Books(Registering(b.cell, rid, name, size, s.next), b.usage.(storage := b.usage.storage + delta),
          b.storage + delta, b.slots), s.next + 1);
    }
  }

  // Retention sweep.

  lemma SweptOk(c: Cell, bound: nat)
    requires CellOk(c, bound) && !Unfinished(c.status)
    ensures var c' := Swept(c).(reservations := Release(c.reservations, OfKinds(EVERY_KIND)));
            CellOk(c', bound) && CellStep(c, c', bound)
  {
    ReleaseKinds(c.reservations, EVERY_KIND);
    UnlinkOk(c.files, c.committed, bound);
    SweptLog(c.log, Face(c.status, c.reason));
    hide FilesOk, LogOk;
  }

  lemma SweptLog(log: Log, face: Face)
    requires LogOk(log, face) && !Unfinished(face.status)
    ensures LogOk(Log(log.sequence, [], []), face)
  {
    if log.sequence == 0 { assert log.events == []; }
  }

  /** The sweep's candidate, however old, is still finished. */
  lemma EndedStays(s: State, t: TaskId)
    requires Inv(s) && t in s.ended && t in s.tasks
    ensures !Unfinished(s.tasks[t].status)
  {
    hide CellOk, LedgerOk, SlotsOk;
  }

  lemma SweepEndedOk(s: State, t: TaskId)
    requires Inv(s)
    ensures Good(s, SweepEnded(s, t))
  {
    hide Inv, CellOk, CellStep, Balanced, Swept, Evolves, Put;
    var r := SweepEnded(s, t);
    if r.outcome != Done {
      StandsStill(s, r);
    } else {
      Known(s, t);
      EndedStays(s, t);
      var b := BooksOf(s, t);
      SweptOk(b.cell, s.next);
      assert Swept(b.cell).reservations == b.cell.reservations by { SweptKeeps(b.cell); }
      GiveAfterEdit(t, b, Swept(b.cell), EVERY_KIND);
      PutOk(s, t, Give(t, b.(cell := Swept(b.cell)), EVERY_KIND), s.next);
      PutNext(s, t, Give(t, b.(cell := Swept(b.cell)), EVERY_KIND));
    }
  }

  lemma SweptKeeps(c: Cell)
    ensures Swept(c).reservations == c.reservations
  {
  }

  // The candidate lists.

  lemma ListEndedOk(s: State, t: TaskId)
    requires Inv(s)
    ensures Good(s, ListEnded(s, t))
  {
    hide CellOk, SlotsOk, LedgerOk, UserOk, HasOpen;
    var r := ListEnded(s, t);
    if r.outcome == Done {
      LedgerReads(s, r.state);
      SlotsReads(s, r.state);
      StepsStill(s, r.state);
    } else {
      StandsStill(s, r);
    }
  }

  lemma StepsStill(s: State, s': State)
    requires s'.tasks == s.tasks
    ensures forall t | t in s.tasks && t in s'.tasks :: CellStep(s.tasks[t], s'.tasks[t], s.next)
  {
    forall t | t in s.tasks ensures CellStep(s.tasks[t], s'.tasks[t], s.next) {
      CellStill(s.tasks[t], s.next);
    }
  }

  lemma ListDrainedOk(s: State, t: TaskId)
    requires Inv(s)
    ensures Good(s, ListDrained(s, t))
  {
    hide CellOk, SlotsOk, LedgerOk, UserOk, HasOpen;
    var r := ListDrained(s, t);
    if r.outcome == Done {
      LedgerReads(s, r.state);
      SlotsReads(s, r.state);
      StepsStill(s, r.state);
    } else {
      StandsStill(s, r);
    }
  }

  lemma SetQuotaOk(s: State, u: UserId, ch: QuotaChange)
    requires Inv(s)
    ensures Good(s, SetQuota(s, u, ch))
  {
    hide CellOk, SlotsOk, LedgerOk, UserOk, HasOpen;
    var r := SetQuota(s, u, ch);
    if r.outcome == Done {
      LedgerReads(s, r.state);
      SlotsReads(s, r.state);
      StepsStill(s, r.state);
      assert r.state.quota.Keys == s.quota.Keys + {u};
    } else {
      StandsStill(s, r);
    }
  }
}
