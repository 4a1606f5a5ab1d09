/** fail_unstarted_tasks, one task: the second release path, which gives back
    the active count and the holdings but refunds no bytes. */
module ProviderService {
  import opened TaskTypes
  import opened Holdings
  import opened Rounds
  import opened Protocol
  import opened Sessions
  import opened TaskRelease

  /** _release_task_holdings of the provider service. */
  method ReleaseWithoutRefund(db: Session) returns (activeReleased: nat)
    modifies db`row, db`usage
    ensures activeReleased == Held(old(db.row).reservations, HoldActive)
    ensures db.row == old(db.row).(reservations := Release(old(db.row).reservations, OfKinds(EVERY_KIND)))
    ensures db.usage == old(db.usage).(active := old(db.usage).active - activeReleased)
  {
    hide Release, Returned, Held, CountOf;
    ghost var rs := db.row.reservations;
    var released := db.ReleaseReservations(OfKinds(EVERY_KIND));
    ReturnedKinds(rs, EVERY_KIND, HoldActive);
    activeReleased := CountOf(released, HoldActive);
    if activeReleased > 0 {
      db.usage := db.usage.(active := db.usage.active - activeReleased);
    }
  }

  method FailUnstarted(db: Session)
    requires Orderly(db.row) && db.row.status in {Uploading, Queued, Ready}
    requires db.row.status != Queued ==> !HasOpen(db.row.rounds)
    modifies db
    ensures db.Rows() == Books(RevokedCell(old(db.row)),
                               old(db.usage).(active := old(db.usage).active - Held(old(db.row).reservations,
                                   HoldActive)),
                               old(db.platform), old(db.slots))
    ensures db.next == old(db.next) && db.alarms == old(db.alarms)
  {
    hide Held, Release, Updated, UpdateWhere;
    var n := ReleaseWithoutRefund(db);
    OnlyNewest(db.row.rounds, InTask({RPending}), To(RCancelled));
    hide OnlyLastOpen, IdsDistinct;
    var cancelled := db.UpdateRounds(InTask({RPending}), To(RCancelled));
    db.row := db.row.(status := Failed, reason := Some(KeyRevoked));
    db.AnnounceWith(StatusChanged(Failed, Some(KeyRevoked)), if |cancelled| > 0
        then Some(RoundCancelled(None, Some(KeyRevoked))) else None);
  }
}
