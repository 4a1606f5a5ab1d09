/** The executor's transactions, statement by statement. Where the code can
    return after writing only part of a transaction, the outcome says so, and
    the contract shows that it never does. */
module TaskExecutor {
  import opened TaskTypes
  import opened EventLog
  import opened Rounds
  import opened Protocol
  import Effects
  import opened Ledgers
  import opened Sessions
  import opened TaskRelease

  datatype Ending = Abstained | HalfWritten | Written

  /** The epoch fence of the tool callbacks: does this claim still speak for the
      round that is running now? */
  method RoundLive(db: Session, rid: RoundId, epoch: nat) returns (live: bool)
    requires Orderly(db.row)
    ensures live <==> LastAtEpoch(db.row.rounds, rid, epoch)
  {
    OnlyNewest(db.row.rounds, ByEpoch(rid, epoch), Touch);
    live := Updated(db.row.rounds, ByEpoch(rid, epoch), Touch) != [];
  }

  /** The lease fence: an update that changes nothing but holds the row. */
  method FenceRound(db: Session, rid: RoundId, iid: Instance, epoch: nat) returns (held: bool)
    requires Orderly(db.row)
    modifies db`row
    ensures held <==> LastUnder(old(db.row).rounds, rid, Some(iid), epoch)
    ensures db.row == old(db.row)
  {
    hide Updated, UpdateWhere;
    OnlyNewest(db.row.rounds, ByLease(rid, Some(iid), epoch), Touch);
    hide OnlyLastOpen, IdsDistinct;
    var fenced := db.UpdateRounds(ByLease(rid, Some(iid), epoch), Touch);
    assert db.row.rounds == old(db.row).rounds;
    held := fenced != [];
  }

  /** _persist_fact: one message under the fence. */
  method PersistFact(db: Session, rid: RoundId, iid: Instance, epoch: nat, author: Speaker) returns (saved: bool)
    requires Orderly(db.row)
    modifies db
    ensures saved <==> LastUnder(old(db.row).rounds, rid, Some(iid), epoch)
    ensures saved ==> db.Rows() == old(db.Rows()).(cell := Say(old(db.row),
        MessageSaved(old(db.next), author, Some(rid))))
                      && db.alarms == old(db.alarms) && db.next == old(db.next) + 1
  {
    hide Emit, Orderly;
    saved := FenceRound(db, rid, iid, epoch);
    if saved {
      var mid := db.SaveMessage(author, Some(rid));
    }
  }

  /** settle: close the round, save the message the pump could not, and let the
      provider check decide between ready and aborted. */
  method Settle(db: Session, rid: RoundId, iid: Instance, epoch: nat, tail: bool, revoked: bool) returns (settled: bool)
    requires Orderly(db.row) && Funded(db.Rows()) && BytesOnFiles(db.row.reservations)
    modifies db
    ensures settled <==> LastUnder(old(db.row).rounds, rid, Some(iid), epoch)
    ensures settled ==> db.Rows() == GiveTier(db.task,
        old(db.Rows()).(cell := Settled(old(db.row), old(db.next), tail, revoked)))
                        && db.alarms == old(db.alarms) && db.next == old(db.next) + if tail then 1 else 0
    ensures settled ==>
      && db.row.status == (if revoked then Aborted else Ready)
      && db.row.log.messages == old(db.row).log.messages
           + if tail then [Message(old(db.next), old(db.row).log.sequence + 1, ByAssistant)] else []
  {
    hide GiveTier, Updated, UpdateWhere, Emit;
    OnlyNewest(db.row.rounds, ByLease(rid, Some(iid), epoch), To(RSettled));
    hide OnlyLastOpen, IdsDistinct;
    var flipped := db.UpdateRounds(ByLease(rid, Some(iid), epoch), To(RSettled));
    if |flipped| == 0 { return false; }
    var attempt := flipped[0].attempt;
    if tail {
      var mid := db.SaveMessage(ByAssistant, Some(rid));
    }
    db.Announce(RoundSettled(rid, attempt));
    var terminal, why := if revoked then Aborted else Ready, if revoked then Some(KeyRevoked) else None;
    var rowcount := db.EndTask({Running}, terminal, why);
    if rowcount > 0 {
      db.Announce(StatusChanged(terminal, why));
    }
    ReleaseTaskHoldings(db);
    Effects.SettledCell(old(db.row), old(db.next), tail, revoked);
    TierKeeps(db.task, old(db.Rows()).(cell := Settled(old(db.row), old(db.next), tail, revoked)));
    return true;
  }

  /** _enforce_round_deadline: if the task's own flip failed, the round's would
      stand alone. */
  method EnforceRoundDeadline(db: Session, rid: RoundId, iid: Instance, epoch: nat) returns (r: Ending)
    requires Orderly(db.row) && Funded(db.Rows()) && BytesOnFiles(db.row.reservations)
    modifies db
    ensures r == if LastUnder(old(db.row).rounds, rid, Some(iid), epoch) then Written else Abstained
    ensures r == Written ==> db.Rows() == GiveTier(db.task, old(db.Rows()).(cell := RoundLostCell(old(db.row))))
                             && db.alarms == old(db.alarms) && db.next == old(db.next)
  {
    hide GiveTier, Updated, UpdateWhere, Emit;
    OnlyNewest(db.row.rounds, ByLease(rid, Some(iid), epoch), EndAs(RFailed));
    hide OnlyLastOpen, IdsDistinct;
    var flipped := db.UpdateRounds(ByLease(rid, Some(iid), epoch), EndAs(RFailed));
    if |flipped| == 0 { return Abstained; }
    var rowcount := db.CloseTask({Running}, Failed, Some(RoundLost));
    if rowcount == 0 { return HalfWritten; }
    db.AnnounceTwo(StatusChanged(Failed, Some(RoundLost)), RoundFailed(rid, flipped[0].attempt));
    ReleaseTaskHoldings(db);
    return Written;
  }

  /** The round_cancelled events of a stop, from sequence `n` on. */
  function Cancellations(rs: seq<Round>, n: nat, why: Reason): seq<Event> {
    if rs == [] then [] else
      Cancellations(rs[..|rs| - 1], n, why) + [Event(n + |rs| - 1, RoundCancelled(Some(rs[|rs| - 1].id), Some(why)))]
  }

  method AnnounceCancelled(db: Session, rs: seq<Round>, n: nat, why: Reason)
    modifies db`row
    ensures db.row == old(db.row).(log := old(db.row).log.(events := old(db.row).log.events + Cancellations(rs, n,
        why)))
  {
    for i := 0 to |rs|
      invariant db.row == old(db.row).(log := old(db.row).log.(events := old(db.row).log.events
          + Cancellations(rs[..i], n, why)))
    {
      assert rs[..i + 1][..i] == rs[..i];
      db.AddEvent(n + i, RoundCancelled(Some(rs[i].id), Some(why)));
    }
    assert rs[..|rs|] == rs;
  }

  /** At most one round was open, so the batch is the one or two events of a stop. */
  lemma StoppedForm(c: Cell, c': Cell, why: Reason, cancelled: seq<Round>)
    requires cancelled == if HasOpen(c.rounds) then [Amend(EndAs(RCancelled), Last(c))] else []
    requires c' == c.(
      status := Aborted, reason := Some(why), pending := None,
      rounds := if HasOpen(c.rounds) then c.rounds[|c.rounds| - 1 := Amend(EndAs(RCancelled), Last(c))] else c.rounds,
      log := Log(c.log.sequence + 1 + |cancelled|,
                 c.log.events + [Event(c.log.sequence + 1, StatusChanged(Aborted, Some(why)))]
                              + Cancellations(cancelled, c.log.sequence + 2, why), c.log.messages))
    ensures c' == Stopped(c, why)
  {
    hide Cancellations;
    var ended := Event(c.log.sequence + 1, StatusChanged(Aborted, Some(why)));
    if HasOpen(c.rounds) {
      OneCancellation(Amend(EndAs(RCancelled), Last(c)), c.log.sequence + 2, why);
      assert c'.log.events == c.log.events + [ended]
                              + [Event(c.log.sequence + 2, RoundCancelled(Some(Last(c).id), Some(why)))];
    } else {
      NoCancellation(c.log.sequence + 2, why);
      assert c'.log.events == c.log.events + [ended];
    }
  }

  lemma OneCancellation(r: Round, n: nat, why: Reason)
    ensures Cancellations([r], n, why) == [Event(n, RoundCancelled(Some(r.id), Some(why)))]
  {
    assert [r][..0] == [];
    assert Cancellations([r], n, why) == [] + [Event(n, RoundCancelled(Some(r.id), Some(why)))];
  }

  lemma NoCancellation(n: nat, why: Reason)
    ensures Cancellations([], n, why) == []
  {
  }

  /** _terminate_one and _suspend_one_task: cancel whatever round is open, abort
      the task, announce both. */
  method StopTask(db: Session, why: Reason) returns (r: Ending)
    requires Orderly(db.row) && Funded(db.Rows()) && BytesOnFiles(db.row.reservations)
    modifies db
    ensures r == if old(db.row).status in {Queued, Running} then Written else Abstained
    ensures r == Written ==> db.Rows() == GiveTier(db.task, old(db.Rows()).(cell := Stopped(old(db.row), why)))
                             && db.alarms == old(db.alarms) && db.next == old(db.next)
  {
    hide GiveTier, Updated, UpdateWhere, Stopped, Cancellations;
    if db.row.status != Queued && db.row.status != Running { return Abstained; }
    OnlyNewest(db.row.rounds, InTask(ACTIVE_ROUND_STATES), EndAs(RCancelled));
    hide OnlyLastOpen, IdsDistinct;
    var cancelled := db.UpdateRounds(InTask(ACTIVE_ROUND_STATES), EndAs(RCancelled));
    var rowcount := db.CloseTask({Queued, Running}, Aborted, Some(why));
    if rowcount == 0 { return HalfWritten; }
    var n := db.AllocateEventSequence(1 + |cancelled|);
    db.AddEvent(n, StatusChanged(Aborted, Some(why)));
    AnnounceCancelled(db, cancelled, n + 1, why);
    StoppedForm(old(db.row), db.row, why, cancelled);
    ReleaseTaskHoldings(db);
    return Written;
  }

  /** One candidate of reconcile_pending_terminal; whether rounds are open is
      not asked again. */
  method ReconcileOne(db: Session, terminal: Terminal) returns (finalized: bool)
    requires Funded(db.Rows()) && BytesOnFiles(db.row.reservations)
    modifies db
    ensures finalized <==> old(db.row).status == Running && old(db.row).pending == Some(terminal)
    ensures finalized ==> db.Rows() == GiveTier(db.task, old(db.Rows()).(cell := Reconciled(old(db.row), terminal)))
                          && db.alarms == old(db.alarms) && db.next == old(db.next)
    ensures finalized && terminal != ToDeleted ==>
      && db.row.status == (if terminal == ToAborted then Aborted else Completed)
      && db.row.reason == (if terminal == ToAborted then Some(UserCancel) else None)
  {
    hide GiveTier, Emit;
    if db.row.status != Running || db.row.pending != Some(terminal) { return false; }
    var rowcount := db.CloseTask({Running}, StatusOf(terminal), ReasonFor(terminal));
    db.Announce(StatusChanged(StatusOf(terminal), ReasonFor(terminal)));
    ReleaseTaskHoldings(db);
    TierKeeps(db.task, old(db.Rows()).(cell := Reconciled(old(db.row), terminal)));
    return true;
  }
}
