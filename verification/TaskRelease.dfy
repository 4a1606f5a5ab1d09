/** The release primitive: flip held reservations by the tier of the status in
    place and pay the counters back what the flipped rows say. */
module TaskRelease {
  import opened TaskTypes
  import opened Holdings
  import opened Rounds
  import opened Protocol
  import opened Sessions
  import opened Ledgers

  /** A conditional subtraction with its lower bound: short accounts stay put. */
  function PayBack(balance: int, n: nat): int {
    if balance >= n then balance - n else balance
  }

  /** ... and are logged for a person to look at. */
  function Short(balance: int, n: nat): nat {
    if n > 0 && balance < n then 1 else 0
  }

  method RefundStorage(db: Session, n: nat)
    requires n > 0
    modifies db`usage, db`platform, db`alarms
    ensures db.usage == old(db.usage).(storage := PayBack(old(db.usage).storage, n))
    ensures db.platform == PayBack(old(db.platform), n)
    ensures db.alarms == old(db.alarms) + Short(old(db.usage).storage, n) + Short(old(db.platform), n)
  {
    if db.usage.storage >= n { db.usage := db.usage.(storage := db.usage.storage - n); }
        else { db.alarms := db.alarms + 1; }
    if db.platform >= n { db.platform := db.platform - n; } else { db.alarms := db.alarms + 1; }
  }

  /** The counters follow the rows that RETURNING reported, and nothing else. */
  method ApplyReleaseAccounting(db: Session, released: seq<Reservation>, refundStorage: bool)
    modifies db`usage, db`platform, db`slots, db`alarms
    ensures db.slots == if CountOf(released, HoldRunning) > 0 then FreeSlots(old(db.slots), db.task) else old(db.slots)
    ensures var x, n := old(db.usage), if refundStorage then SumBytes(released) else 0;
            && db.usage == Usage(PayBack(x.active, CountOf(released, HoldActive)),
                                 PayBack(x.running, CountOf(released, HoldRunning)), PayBack(x.storage, n))
            && db.platform == PayBack(old(db.platform), n)
            && db.alarms == old(db.alarms) + Short(x.running, CountOf(released, HoldRunning))
                            + Short(x.active, CountOf(released, HoldActive)) + Short(x.storage, n)
                                + Short(old(db.platform), n)
  {
    var runningN := CountOf(released, HoldRunning);
    var activeN := CountOf(released, HoldActive);
    if runningN > 0 {
      db.slots := FreeSlots(db.slots, db.task);
      if db.usage.running >= runningN { db.usage := db.usage.(running := db.usage.running - runningN); }
          else { db.alarms := db.alarms + 1; }
    }
    if activeN > 0 {
      if db.usage.active >= activeN { db.usage := db.usage.(active := db.usage.active - activeN); }
          else { db.alarms := db.alarms + 1; }
    }
    if refundStorage {
      var n := SumBytes(released);
      if n > 0 { RefundStorage(db, n); }
    }
  }

  lemma {:induction false} CountConcat(a: seq<Reservation>, b: seq<Reservation>, k: Kind)
    ensures CountOf(a + b, k) == CountOf(a, k) + CountOf(b, k)
  {
    if b == [] {
      assert a + b == a;
    } else {
      CountConcat(a, b[..|b| - 1], k);
      assert (a + b)[..|a + b| - 1] == a + b[..|b| - 1];
    }
  }

  /** Active and running reservations carry no bytes. */
  predicate BytesOnFiles(rs: seq<Reservation>) {
    HeldBytes(rs, HoldActive) == 0 && HeldBytes(rs, HoldRunning) == 0
  }

  /** What the transactions rely on in a task's rows. */
  predicate Orderly(c: Cell) {
    && OnlyLastOpen(c.rounds) && IdsDistinct(c.rounds)
    && (HasOpen(c.rounds) ==> OpenOk(c.rounds[|c.rounds| - 1], c.status, c.pending))
    && (HasOpen(c.rounds) && c.rounds[|c.rounds| - 1].state == RPending ==> Held(c.reservations, HoldRunning) == 0)
    && (c.status == Queued ==> HasOpen(c.rounds))
    && (c.pending.Some? ==> c.status in {Running, Deleted})
  }

  /** On funded books the release pays back the tier of the task's status, in
      full, without an alarm. */
  method ReleaseTaskHoldings(db: Session)
    requires Funded(db.Rows()) && BytesOnFiles(db.row.reservations)
    modifies db`row, db`usage, db`platform, db`slots, db`alarms
    ensures db.Rows() == GiveTier(db.task, old(db.Rows()))
    ensures db.alarms == old(db.alarms)
  {
    hide Returned, Release, CountOf, SumBytes, FreeSlots, Held, HeldBytes;
    ghost var rs := db.row.reservations;
    var released;
    if db.row.status == Deleted {
      released := db.ReleaseReservations(OfKinds(EVERY_KIND));
      ReleasedBooks(rs, EVERY_KIND, released);
      ApplyReleaseAccounting(db, released, true);
      return;
    }
    released := db.ReleaseReservations(OfKinds({HoldRunning}));
    if !Unfinished(db.row.status) {
      var more := db.ReleaseReservations(OfKinds({HoldActive}));
      EndedRelease(rs, released, more);
      released := released + more;
    } else {
      ReleasedBooks(rs, {HoldRunning}, released);
    }
    ApplyReleaseAccounting(db, released, false);
  }

  /** The two releases of an ended task are one release of both kinds. */
  lemma EndedRelease(rs: seq<Reservation>, first: seq<Reservation>, second: seq<Reservation>)
    requires first == Returned(rs, OfKinds({HoldRunning}))
    requires second == Returned(Release(rs, OfKinds({HoldRunning})), OfKinds({HoldActive}))
    ensures Release(Release(rs, OfKinds({HoldRunning})), OfKinds({HoldActive}))
        == Release(rs, OfKinds({HoldRunning, HoldActive}))
    ensures CountOf(first + second, HoldRunning) == Held(rs, HoldRunning)
    ensures CountOf(first + second, HoldActive) == Held(rs, HoldActive)
  {
    hide Returned, Release, CountOf, SumBytes, Held, HeldBytes;
    ReleasedBooks(rs, {HoldRunning}, first);
    ReleasedBooks(Release(rs, OfKinds({HoldRunning})), {HoldActive}, second);
    ReleaseKinds(rs, {HoldRunning});
    ReleaseUnion(rs, {HoldRunning}, {HoldActive});
    CountConcat(first, second, HoldRunning);
    CountConcat(first, second, HoldActive);
    assert {HoldRunning} + {HoldActive} == {HoldRunning, HoldActive};
  }

  lemma ReleasedBooks(rs: seq<Reservation>, kinds: set<Kind>, released: seq<Reservation>)
    requires released == Returned(rs, OfKinds(kinds))
    ensures CountOf(released, HoldRunning) == HeldIf(rs, kinds, HoldRunning)
    ensures CountOf(released, HoldActive) == HeldIf(rs, kinds, HoldActive)
    ensures BytesOnFiles(rs) ==> SumBytes(released) == BytesIf(rs, kinds, HoldRoot) + BytesIf(rs, kinds, HoldCopy)
  {
    ReturnedKinds(rs, kinds, HoldRunning);
    ReturnedKinds(rs, kinds, HoldActive);
    ReturnedBytes(rs, kinds);
  }
}
