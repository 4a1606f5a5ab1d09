/** The dispatcher's transactions, statement by statement, with the code's
    repeated rowcount checks; each contract says exactly when a candidate is
    dropped, which shows the later checks to be redundant. */
module TaskDispatcher {
  import opened TaskTypes
  import opened Holdings
  import opened FileRules
  import opened Rounds
  import opened Protocol
  import Effects
  import opened Ledgers
  import opened Sessions
  import opened TaskRelease

  /** _claim_round: a running quota or a slot that is missing drops the
      candidate after the round and the task were already flipped. */
  method ClaimRound(db: Session, rid: RoundId, iid: Instance) returns (dropped: bool)
    requires Orderly(db.row)
    modifies db
    ensures dropped <==> !LastIs(old(db.row).rounds, rid, RPending) || old(db.usage).running >= db.quota.maxRunning
                         || FirstFree(old(db.slots), 0) == |old(db.slots)|
    ensures !dropped ==> db.Rows() == ClaimedBooks(old(db.Rows()), db.task, iid)
    ensures !dropped ==> db.alarms == old(db.alarms) && db.next == old(db.next)
  {
    hide Held, Updated, UpdateWhere, FirstFree;
    OnlyNewest(db.row.rounds, ByState(rid, RPending), LeaseTo(iid));
    hide OnlyLastOpen, IdsDistinct;
    var flipped := db.UpdateRounds(ByState(rid, RPending), LeaseTo(iid));
    if |flipped| == 0 { return true; }
    assert db.row.status == Queued && Held(db.row.reservations, HoldRunning) == 0;
    hide Orderly, OpenOk, HasOpen;
    var attempt := flipped[0].attempt;
    var rowcount := db.FlipStatus({Queued}, Running);
    if rowcount == 0 { return true; }
    db.AddReservation(Reservation(HoldRunning, None, 0, true));
    rowcount := db.TakeRunning();
    if rowcount == 0 { return true; }
    rowcount := db.LeaseSlot();
    if rowcount == 0 { return true; }
    db.AnnounceTwo(StatusChanged(Running, None), RoundRunning(rid, attempt));
    return false;
  }

  /** _reclaim_expired_round: fence, requeue or fail by attempt, release. */
  method ReclaimExpiredRound(db: Session, rid: RoundId, lo: Option<Instance>, le: nat) returns (dropped: bool)
    requires Orderly(db.row) && Funded(db.Rows()) && BytesOnFiles(db.row.reservations)
    modifies db
    ensures dropped <==> !LastUnder(old(db.row).rounds, rid, lo, le)
    ensures !dropped ==> db.Rows() == GiveTier(db.task, old(db.Rows()).(cell := Reclaimed(old(db.row))))
                         && db.alarms == old(db.alarms) && db.next == old(db.next)
    ensures !dropped ==> var round := Last(old(db.row));
      if round.attempt < 3
      then db.row.status == Queued && db.row.rounds ==
             old(db.row).rounds[|old(db.row).rounds| - 1 := round.(state := RPending, leaseOwner := None)]
      else db.row.status == Failed && db.row.reason == Some(RoundLost) && db.row.rounds ==
             old(db.row).rounds[|old(db.row).rounds| - 1 := round.(state := RFailed, leaseOwner := None)]
  {
    hide Held, HeldBytes, GiveTier, Updated, UpdateWhere;
    OnlyNewest(db.row.rounds, ByLease(rid, lo, le), Unlease);
    var fenced := db.UpdateRounds(ByLease(rid, lo, le), Unlease);
    if |fenced| == 0 { return true; }
    var attempt := fenced[0].attempt;
    var toFailed := attempt >= ATTEMPT_LIMIT;
    var ch := To(if toFailed then RFailed else RPending);
    OnlyNewest(db.row.rounds, Unleased(rid), ch);
    hide OnlyLastOpen, IdsDistinct;
    var step2 := db.UpdateRounds(Unleased(rid), ch);
    if |step2| == 0 { return true; }
    assert db.row.rounds == EndRound(old(db.row), ch.state).rounds;
    var rowcount;
    if toFailed {
      rowcount := db.EndTask({Running}, Failed, Some(RoundLost));
    } else {
      rowcount := db.FlipStatus({Running}, Queued);
    }
    if rowcount == 0 { return true; }
    db.AnnounceTwo(if toFailed then StatusChanged(Failed, Some(RoundLost)) else StatusChanged(Queued, None),
                   if toFailed then RoundFailed(rid, attempt) else RoundQueued(rid, Some(attempt)));
    ReleaseTaskHoldings(db);
    Effects.ReclaimedCell(old(db.row));
    TierKeeps(db.task, old(db.Rows()).(cell := Reclaimed(old(db.row))));
    return false;
  }

  /** _cancel_cancelling_round, once the container is known to be dead. */
  method CancelCancellingRound(db: Session, rid: RoundId) returns (dropped: bool)
    requires Orderly(db.row) && Funded(db.Rows()) && BytesOnFiles(db.row.reservations)
    modifies db
    ensures dropped <==> !LastIs(old(db.row).rounds, rid, RCancelling)
    ensures !dropped ==> db.Rows() == GiveTier(db.task, old(db.Rows()).(cell := Collected(old(db.row))))
                         && db.alarms == old(db.alarms) && db.next == old(db.next)
  {
    hide Held, HeldBytes, GiveTier, Updated, UpdateWhere;
    OnlyNewest(db.row.rounds, ByState(rid, RCancelling), EndAs(RCancelled));
    hide OnlyLastOpen, IdsDistinct;
    var flipped := db.UpdateRounds(ByState(rid, RCancelling), EndAs(RCancelled));
    if |flipped| == 0 { return true; }
    db.Announce(RoundCancelled(Some(rid), None));
    ReleaseTaskHoldings(db);
    return false;
  }

  /** The transaction of one candidate of the upload sweep. */
  method ExpireUpload(db: Session) returns (dropped: bool)
    requires Funded(db.Rows()) && BytesOnFiles(db.row.reservations)
    modifies db
    ensures dropped <==> old(db.row).status != Uploading
    ensures !dropped ==> db.Rows() == GiveTier(db.task,
        old(db.Rows()).(cell := Turn(old(db.row), Failed, Some(UploadExpired))))
                         && db.alarms == old(db.alarms) && db.next == old(db.next)
  {
    hide Held, HeldBytes, GiveTier;
    var rowcount := db.EndTask({Uploading}, Failed, Some(UploadExpired));
    if rowcount == 0 { return true; }
    db.Announce(StatusChanged(Failed, Some(UploadExpired)));
    ReleaseTaskHoldings(db);
    return false;
  }

  /** The transaction of one candidate of the retention sweep: events, rounds
      and messages go, and whatever is still held is released and refunded. */
  method CleanTerminal(db: Session)
    requires Funded(db.Rows()) && BytesOnFiles(db.row.reservations)
    modifies db
    ensures db.Rows() == Give(db.task, old(db.Rows()).(cell := Swept(old(db.row))), EVERY_KIND)
    ensures db.alarms == old(db.alarms) && db.next == old(db.next)
  {
    hide Held, HeldBytes, Release, Returned, CountOf, SumBytes, FreeSlots, Unlink;
    ghost var rs := db.row.reservations;
    db.row := db.row.(log := db.row.log.(events := []));
    db.row := db.row.(rounds := [], files := Unlink(db.row.files));
    db.row := db.row.(log := db.row.log.(messages := []), initial := None);
    var released := db.ReleaseReservations(OfKinds(EVERY_KIND));
    ReleasedBooks(rs, EVERY_KIND, released);
    if released != [] {
      ApplyReleaseAccounting(db, released, true);
    } else {
      EmptyCounts();
    }
  }

  lemma EmptyCounts()
    ensures forall k :: CountOf([], k) == 0
    ensures SumBytes([]) == 0
  {
  }
}
