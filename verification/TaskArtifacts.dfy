/** Registering an artifact under its round's epoch: the old row of the same
    name is retired and refunded, the new one stored and charged. */
module TaskArtifacts {
  import opened TaskTypes
  import opened Holdings
  import opened FileRules
  import opened Rounds
  import opened Protocol
  import opened Invariant
  import opened Ledgers
  import opened Sessions
  import opened TaskRelease
  import opened TaskService

  /** _fence_round: by epoch alone, as the callback does not know the lease owner. */
  method FenceEpoch(db: Session, rid: RoundId, epoch: nat) returns (held: bool)
    requires Orderly(db.row)
    modifies db`row
    ensures held <==> LastAtEpoch(old(db.row).rounds, rid, epoch)
    ensures db.row == old(db.row)
  {
    hide Updated, UpdateWhere, Held;
    OnlyNewest(db.row.rounds, ByEpoch(rid, epoch), Touch);
    hide OnlyLastOpen, IdsDistinct;
    var fenced := db.UpdateRounds(ByEpoch(rid, epoch), Touch);
    assert db.row.rounds == old(db.row).rounds;
    held := fenced != [];
  }

  /** _retire_old_row: tombstone the row, release its copy, refund what the
      copy held. */
  method RetireOldRow(db: Session, i: nat) returns (found: bool)
    requires i < |db.row.files| && db.row.files[i].state == Registered
    requires forall j, k | 0 <= j < k < |db.row.files| :: db.row.files[j].id != db.row.files[k].id
    requires CopyBytes(db.row.reservations, db.row.files[i].id) == db.row.files[i].size
    requires db.usage.storage >= db.row.files[i].size && db.platform >= db.row.files[i].size
    modifies db
    ensures found
    ensures var size := old(db.row).files[i].size;
            && db.Rows() == Books(Retired(old(db.row), i), old(db.usage).(storage := old(db.usage).storage - size),
                                  old(db.platform) - size, old(db.slots))
            && db.next == old(db.next) && db.alarms == old(db.alarms)
  {
    hide Release, Returned, SumBytes, CopyBytes;
    var retired := db.row.files[i];
    MarkIsReplace(db.row.files, i, Registered, Tombstone);
    ReturnedCopy(db.row.reservations, retired.id);
    db.row := db.row.(files := Mark(db.row.files, retired.id, Registered, Tombstone));
    var released := db.ReleaseReservations(CopyFor(retired.id));
    var refunded := SumBytes(released);
    if refunded > 0 { RefundStorage(db, refunded); }
    return true;
  }

  /** What register_output relies on: the artifact copies back their rows. */
  lemma Stocked(c: Cell, name: string, bound: nat)
    requires CellOk(c, bound)
    ensures forall j, k | 0 <= j < k < |c.files| :: c.files[j].id != c.files[k].id
    ensures HeldCopies(c.reservations, bound) == 0
    ensures var i := Find(c.files, OutputNamed(name), 0);
            i < |c.files| && c.status == Running ==>
              && c.files[i].state == Registered
              && CopyBytes(c.reservations, c.files[i].id) == c.files[i].size == Replaced(c, name)
              && c.files[i].size <= LiveSize(c.files, Output) <= Retained(c.reservations)
              && c.files[i].id < bound
  {
    hide RoundsOk;
    var i := Find(c.files, OutputNamed(name), 0);
    if i < |c.files| && c.status == Running {
      OneOfTotal(c.files, i);
    }
  }

  lemma {:induction false} OneOfTotal(files: seq<File>, i: nat)
    requires i < |files| && Alive(files[i])
    ensures files[i].size <= LiveSize(files, files[i].direction)
  {
    if i < |files| - 1 {
      OneOfTotal(files[..|files| - 1], i);
    }
  }

  /** register_output, rows and accounts. */
  method RegisterOutput(db: Session, rid: RoundId, epoch: nat, name: string, size: nat) returns (out: Outcome)
    requires CellOk(db.row, db.next) && Funded(db.Rows())
    modifies db
    ensures out == var c, replaced := old(db.row), Replaced(old(db.row), name);
                   if !LastAtEpoch(c.rounds, rid, epoch) then Rejected
                   else if !ValidName(name) then InvalidInput
                   else if size > MAX_SINGLE_FILE_BYTES || LiveTotal(c.files) - replaced + size > MAX_TASK_BYTES
                       then FileLimit
                   else if old(db.usage).storage - replaced + size > db.quota.maxStorage
                           || old(db.platform) - replaced + size > db.platformMax then StorageExceeded
                   else Done
    ensures out == Done ==>
      var moved := size - Replaced(old(db.row), name);
      && db.Rows() == Books(Registering(old(db.row), rid, name, size, old(db.next)),
                            old(db.usage).(storage := old(db.usage).storage + moved), old(db.platform)
                                + moved, old(db.slots))
      && db.next == old(db.next) + 1 && db.alarms == old(db.alarms)
  {
    hide CellOk, ValidName, LiveTotal, Held, HeldBytes, HeldCopies, CopyBytes, LiveSize, Orderly, BytesOnFiles;
    Tidy(db.row, db.next);
    Stocked(db.row, name, db.next);
    ghost var c := db.row;
    var held := FenceEpoch(db, rid, epoch);
    if !held { return Rejected; }
    EpochRuns(c, rid, epoch);
    if !ValidName(name) { return InvalidInput; }
    var i := Find(db.row.files, OutputNamed(name), 0);
    var totalBytes: int := LiveTotal(db.row.files);
    if i < |db.row.files| { totalBytes := totalBytes - db.row.files[i].size; }
    if size > MAX_SINGLE_FILE_BYTES || totalBytes + size > MAX_TASK_BYTES { return FileLimit; }
    if i < |db.row.files| {
      RetiredCopies(c, i, db.next);
      var found := RetireOldRow(db, i);
      if !found { return FileMissing; }
    }
    hide Release;
    var fid := db.NewId();
    db.row := db.row.(files := db.row.files + [File(fid, Output, name, size, Registered, Some(rid))]);
    db.AddReservation(Reservation(HoldCopy, Some(fid), size, true));
    var charged := db.ChargeStorage(size);
    if !charged { return StorageExceeded; }
    return Done;
  }

  lemma EpochRuns(c: Cell, rid: RoundId, epoch: nat)
    requires Orderly(c) && LastAtEpoch(c.rounds, rid, epoch)
    ensures c.status == Running
  {
  }

  lemma RetiredCopies(c: Cell, i: nat, fid: FileId)
    requires i < |c.files| && HeldCopies(c.reservations, fid) == 0
    ensures HeldCopies(Retired(c, i).reservations, fid) == 0
  {
    ReleaseCopy(c.reservations, c.files[i].id);
  }
}
