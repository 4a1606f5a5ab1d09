/** The two transactions that touch many tasks at once: a provider's revocation
    and the account-deletion hook. */
module MassTransactions {
  import opened TaskTypes
  import opened Holdings
  import opened Rounds
  import opened Protocol
  import opened Invariant
  import opened Conservation
  import opened MassPreservation
  import opened Ledgers
  import opened TaskRelease
  import opened Databases
  import ProviderService
  import MapSum

  /** fail_unstarted_tasks: task by task, all in the caller's transaction. */
  method FailUnstartedTasks(db: Database, owner: UserId, p: ProviderId)
    requires Inv(db.View())
    modifies db
    ensures db.View() == RevokeProvider(old(db.View()), owner, p).state && db.alarms == old(db.alarms)
  {
    hide Inv, CellOk, Funded, Orderly, BytesOnFiles, RevokedCell, Held, HeldBytes, Evolves, HasOpen;
    ghost var s0 := db.View();
    for t := 0 to db.next
      invariant db.View() == RevokeBelow(s0, owner, p, t) && db.alarms == old(db.alarms)
    {
      RevokeBelowOk(s0, owner, p, t);
      if t in db.tasks && db.tasks[t].owner == owner && db.tasks[t].provider == p
          && db.tasks[t].status in {Uploading, Queued, Ready} {
        FailOne(db, owner, p, t);
      }
    }
    RevokeBelowOk(s0, owner, p, s0.next);
  }

  method FailOne(db: Database, owner: UserId, p: ProviderId, t: TaskId)
    requires Inv(db.View()) && t in db.tasks && Unstarted(db.tasks[t], owner, p)
    modifies db
    ensures db.View() == RevokeOne(old(db.View()), owner, p, t) && db.alarms == old(db.alarms)
  {
    hide Inv, CellOk, Funded, Orderly, BytesOnFiles, RevokedCell, Held, HeldBytes, HasOpen;
    Opening(db.View(), t);
    RevokedOwner(db.tasks[t]);
    ghost var stranded := Retained(db.tasks[t].reservations);
    var tx := db.Begin(t);
    ProviderService.FailUnstarted(tx);
    db.Commit(tx);
    db.unrefunded := db.unrefunded[owner := (if owner in db.unrefunded then db.unrefunded[owner] else 0) + stranded];
  }

  lemma RevokedOwner(c: Cell)
    ensures RevokedCell(c).owner == c.owner
  {
  }

  // Account deletion.

  predicate Empty(rs: seq<Reservation>) {
    Held(rs, HoldActive) == 0 && Held(rs, HoldRunning) == 0 && Retained(rs) == 0
  }

  /** The hook has flipped every task of the user to deleted and released those
      below `n`: the rows, the slots, and books that still balance. */
  ghost predicate Partway(s0: State, s: State, u: UserId, n: nat) {
    && LedgerOk(s)
    && RowsPartway(s0, s, u, n)
    && SlotsPartway(s0, s, u, n)
  }

  predicate RowsPartway(s0: State, s: State, u: UserId, n: nat) {
    && s == s0.(tasks := s.tasks, usage := s.usage, storage := s.storage, slots := s.slots)
    && s.tasks.Keys == s0.tasks.Keys && s.usage.Keys == s0.usage.Keys
    && (forall v | v in s0.usage && v != u :: s.usage[v] == s0.usage[v])
    && (forall t | t in s0.tasks :: s.tasks[t].owner == s0.tasks[t].owner)
    && (forall t | t in s0.tasks && s0.tasks[t].owner != u :: s.tasks[t] == s0.tasks[t])
    && (forall t | t in s0.tasks && s0.tasks[t].owner == u ::
          s.tasks[t].status == Deleted && if t < n then Empty(s.tasks[t].reservations)
              else s.tasks[t].reservations == s0.tasks[t].reservations)
  }

  predicate SlotsPartway(s0: State, s: State, u: UserId, n: nat) {
    && |s.slots| == |s0.slots|
    && (forall i | 0 <= i < |s0.slots| ::
          s.slots[i] == if s0.slots[i].Leased? && Owns(s0, u, s0.slots[i].task) && s0.slots[i].task < n then Free
              else s0.slots[i])
  }

  function Flipped(tasks: map<TaskId, Cell>, u: UserId): map<TaskId, Cell> {
    map t | t in tasks ::
      if tasks[t].owner == u then
        var c := tasks[t].(rounds := UpdateWhere(tasks[t].rounds, InTask(ACTIVE_ROUND_STATES), EndAs(RCancelled)));
        if c.status != Deleted then c.(status := Deleted, pending := None) else c
      else tasks[t]
  }

  lemma SameWeights(tasks: map<TaskId, Cell>, tasks': map<TaskId, Cell>, m: Meter)
    requires tasks'.Keys == tasks.Keys
    requires forall t | t in tasks ::
        tasks'[t].owner == tasks[t].owner && tasks'[t].reservations == tasks[t].reservations
    ensures Sum(tasks', m) == Sum(tasks, m)
  {
    assert Weights(tasks', m) == Weights(tasks, m);
  }

  lemma SameUser(tasks: map<TaskId, Cell>, tasks': map<TaskId, Cell>, v: UserId, x: Usage, n: nat)
    requires tasks'.Keys == tasks.Keys
    requires forall t | t in tasks ::
        tasks'[t].owner == tasks[t].owner && tasks'[t].reservations == tasks[t].reservations
    requires UserOk(tasks, v, x, n)
    ensures UserOk(tasks', v, x, n)
  {
    SameWeights(tasks, tasks', ActiveOf(v));
    SameWeights(tasks, tasks', RunningOf(v));
    SameWeights(tasks, tasks', StorageOf(v));
  }

  lemma PartwayBegin(s: State, u: UserId)
    requires LedgerOk(s)
    ensures Partway(s, s.(tasks := Flipped(s.tasks, u)), u, 0)
  {
    hide UserOk, UpdateWhere;
    var s' := s.(tasks := Flipped(s.tasks, u));
    forall v | v in s.usage ensures UserOk(s'.tasks, v, s'.usage[v], UnrefundedOf(s', v)) {
      SameUser(s.tasks, s'.tasks, v, s.usage[v], UnrefundedOf(s, v));
    }
  }

  lemma EmptyRelease(rs: seq<Reservation>)
    ensures Empty(Release(rs, OfKinds(EVERY_KIND)))
  {
    ReleaseKinds(rs, EVERY_KIND);
  }

  lemma PartwaySkip(s0: State, s: State, u: UserId, t: TaskId)
    requires Partway(s0, s, u, t) && !Owns(s0, u, t)
    ensures Partway(s0, s, u, t + 1)
  {
    hide LedgerOk, Empty;
  }

  /** Once t is released its slot is free, and no other slot has moved. */
  lemma SlotReleased(s0: State, s: State, u: UserId, t: TaskId, i: nat)
    requires SlotsOk(s0) && Partway(s0, s, u, t) && Owns(s0, u, t) && i < |s0.slots| && t in s.tasks
    ensures GiveTier(t, BooksOf(s, t)).slots[i] ==
            if s0.slots[i].Leased? && Owns(s0, u, s0.slots[i].task) && s0.slots[i].task < t + 1 then Free
                else s0.slots[i]
  {
    hide LedgerOk, Empty, Release;
    if s0.slots[i] == Leased(t) { assert HoldsSlot(s0, t); }
  }

  lemma LedgerReleased(s: State, t: TaskId)
    requires LedgerOk(s) && t in s.tasks && s.tasks[t].owner in s.usage
    ensures LedgerOk(Put(s, t, GiveTier(t, BooksOf(s, t))))
  {
    hide LedgerOk, Balanced;
    var b := GiveTier(t, BooksOf(s, t));
    GiveAfterEdit(t, BooksOf(s, t), s.tasks[t], Tier(s.tasks[t].status));
    StorageBound(s);
    LedgerPut(s, t, b);
  }

  lemma SlotsReleased(s0: State, s: State, u: UserId, t: TaskId)
    requires SlotsOk(s0) && Partway(s0, s, u, t) && Owns(s0, u, t)
    ensures SlotsPartway(s0, Put(s, t, GiveTier(t, BooksOf(s, t))), u, t + 1)
  {
    hide SlotsOk, LedgerOk, GiveTier, Empty;
    TierIsGive(t, BooksOf(s, t));
    GiveFrame(t, BooksOf(s, t), Tier(s.tasks[t].status));
    forall i | 0 <= i < |s0.slots|
      ensures GiveTier(t, BooksOf(s, t)).slots[i] ==
              if s0.slots[i].Leased? && Owns(s0, u, s0.slots[i].task) && s0.slots[i].task < t + 1 then Free
                  else s0.slots[i]
    {
      SlotReleased(s0, s, u, t, i);
    }
  }

  lemma RowsReleased(s0: State, s: State, u: UserId, t: TaskId)
    requires RowsPartway(s0, s, u, t) && Owns(s0, u, t) && u in s0.usage
    ensures RowsPartway(s0, Put(s, t, GiveTier(t, BooksOf(s, t))), u, t + 1)
  {
    hide Empty, Give;
    EmptyRelease(s.tasks[t].reservations);
    GiveFrame(t, BooksOf(s, t), Tier(s.tasks[t].status));
  }

  lemma TierIsGive(t: TaskId, b: Books)
    ensures GiveTier(t, b) == Give(t, b, Tier(b.cell.status))
  {
  }

  lemma PartwayStep(s0: State, s: State, u: UserId, t: TaskId)
    requires SlotsOk(s0) && Partway(s0, s, u, t) && Owns(s0, u, t) && u in s0.usage
    ensures t in s.tasks && Partway(s0, Put(s, t, GiveTier(t, BooksOf(s, t))), u, t + 1)
  {
    PartwayKeys(s0, s, u, t);
    hide LedgerOk, SlotsOk, RowsPartway, SlotsPartway, GiveTier, Put;
    LedgerReleased(s, t);
    SlotsReleased(s0, s, u, t);
    RowsReleased(s0, s, u, t);
  }

  lemma StorageBound(s: State)
    requires LedgerOk(s)
    ensures s.storage <= s.maxStorage
  {
  }

  lemma GiveFrame(t: TaskId, b: Books, kinds: set<Kind>)
    ensures Give(t, b, kinds).cell == b.cell.(reservations := Release(b.cell.reservations, OfKinds(kinds)))
    ensures |Give(t, b, kinds).slots| == |b.slots|
  {
  }

  lemma EmptySums(tasks: map<TaskId, Cell>, u: UserId, x: Usage, n: nat)
    requires UserOk(tasks, u, x, n)
    requires forall t | t in tasks && tasks[t].owner == u :: Empty(tasks[t].reservations)
    ensures x == Usage(0, 0, n)
  {
    hide Held, HeldBytes;
    MapSum.TotalZero(Weights(tasks, ActiveOf(u)));
    MapSum.TotalZero(Weights(tasks, RunningOf(u)));
    MapSum.TotalZero(Weights(tasks, StorageOf(u)));
  }

  lemma TasksBelow(s: State)
    requires Inv(s)
    ensures forall t | t in s.tasks :: t < s.next
  {
    hide CellOk, LedgerOk, SlotsOk, ListsOk;
  }

  lemma UserDrained(s0: State, s: State, u: UserId)
    requires Inv(s0) && Partway(s0, s, u, s0.next) && u in s0.usage
    ensures s.usage[u] == Usage(0, 0, UnrefundedOf(s0, u))
  {
    hide Inv, UserOk, Empty;
    TasksBelow(s0);
    assert UserOk(s.tasks, u, s.usage[u], UnrefundedOf(s, u));
    EmptySums(s.tasks, u, s.usage[u], UnrefundedOf(s, u));
  }

  lemma StorageDrained(s0: State, s: State, u: UserId)
    requires LedgerOk(s0) && LedgerOk(s) && u in s0.usage
    requires s.usage.Keys == s0.usage.Keys && forall v | v in s0.usage && v != u :: s.usage[v] == s0.usage[v]
    ensures s.storage == s0.storage - s0.usage[u].storage + s.usage[u].storage
  {
    hide UserOk;
    assert s.usage == s0.usage[u := s.usage[u]];
    ChargesPut(s0.usage, u, s.usage[u]);
  }

  lemma SlotsDrained(s0: State, s: State, u: UserId)
    requires Partway(s0, s, u, s0.next) && SlotsOk(s0) && (forall t | t in s0.tasks :: t < s0.next)
    ensures s.slots == EvictSlots(s0, u)
  {
    hide LedgerOk, Empty;
  }

  lemma OthersLeft(s0: State, s: State, u: UserId, n: nat)
    requires Partway(s0, s, u, n)
    ensures Remaining(s.tasks, u) == Remaining(s0.tasks, u)
    ensures u in s0.usage ==> s.usage == s0.usage[u := s.usage[u]]
    ensures LedgerOk(s)
  {
    hide LedgerOk, Empty;
  }

  /** Deleting the released rows leaves what the protocol's step leaves. */
  lemma PartwayEnd(s0: State, s: State, u: UserId)
    requires Inv(s0) && Partway(s0, s, u, s0.next) && u in s0.usage && Owner(s0, u)
    ensures s.(tasks := Remaining(s.tasks, u)) == DeleteAccount(s0, u).state
  {
    hide Inv, LedgerOk, SlotsOk, Empty, EvictSlots;
    UserDrained(s0, s, u);
    LedgerKnown(s0);
    SlotsKnown(s0);
    TasksBelow(s0);
    OthersLeft(s0, s, u, s0.next);
    SlotsDrained(s0, s, u);
    StorageDrained(s0, s, u);
    assert s == s0.(tasks := s.tasks, usage := s.usage, storage := s.storage, slots := s.slots);
    hide Partway;
  }

  lemma PartwayFunds(s0: State, s: State, u: UserId, t: TaskId)
    requires Inv(s0) && Partway(s0, s, u, t) && Owns(s0, u, t)
    ensures Funded(BooksOf(s, t)) && BytesOnFiles(s.tasks[t].reservations) && u in s0.usage && u in s0.quota
  {
    hide Inv, LedgerOk, Funded, BytesOnFiles, Empty;
    Opening(s0, t);
    LedgerFunds(s, t);
  }

  /** The release of one task inside the hook. */
  method ReleaseOne(db: Database, t: TaskId)
    requires t in db.tasks && db.tasks[t].owner in db.usage && db.tasks[t].owner in db.quota
    requires Funded(BooksOf(db.View(), t)) && BytesOnFiles(db.tasks[t].reservations)
    modifies db
    ensures db.View() == Put(old(db.View()), t, GiveTier(t, BooksOf(old(db.View()), t))) && db.alarms == old(db.alarms)
  {
    hide Funded, BytesOnFiles, GiveTier;
    var tx := db.Begin(t);
    ReleaseTaskHoldings(tx);
    db.Commit(tx);
  }

  /** terminate_tasks_hook: close every round, flip every task to deleted,
      release task by task, delete the rows. */
  method TerminateTasksHook(db: Database, u: UserId) returns (out: Outcome)
    requires Inv(db.View())
    modifies db
    ensures Result(db.View(), out) == DeleteAccount(old(db.View()), u) && db.alarms == old(db.alarms)
  {
    hide Inv, Partway, Flipped, EvictSlots;
    ghost var s0 := db.View();
    if forall t | t in db.tasks :: db.tasks[t].owner != u { return Unchanged; }
    OwnerCharged(s0, u);
    LedgerKnown(s0);
    hide LedgerOk;
    PartwayBegin(s0, u);
    db.tasks := Flipped(db.tasks, u);
    ReleaseAll(db, u, s0);
    PartwayEnd(s0, db.View(), u);
    PartwayKeys(s0, db.View(), u, s0.next);
    db.tasks := Remaining(db.tasks, u);
    return Done;
  }

  method ReleaseAll(db: Database, u: UserId, ghost s0: State)
    requires Inv(s0) && Partway(s0, db.View(), u, 0) && u in s0.usage
    modifies db
    ensures Partway(s0, db.View(), u, s0.next) && db.alarms == old(db.alarms)
  {
    hide Inv, Partway, GiveTier, Funded, BytesOnFiles, Put, LedgerOk, SlotsOk;
    PartwayKeys(s0, db.View(), u, 0);
    SlotsKnown(s0);
    for t := 0 to db.next
      invariant Partway(s0, db.View(), u, t) && db.alarms == old(db.alarms)
    {
      PartwayKeys(s0, db.View(), u, t);
      if t in db.tasks && db.tasks[t].owner == u {
        PartwayFunds(s0, db.View(), u, t);
        PartwayStep(s0, db.View(), u, t);
        ReleaseOne(db, t);
      } else {
        PartwaySkip(s0, db.View(), u, t);
      }
    }
  }

  lemma OwnerCharged(s: State, u: UserId)
    requires Inv(s) && Owner(s, u)
    ensures u in s.usage
  {
    hide CellOk, LedgerOk, SlotsOk, ListsOk;
  }

  lemma LedgerKnown(s: State)
    requires Inv(s)
    ensures LedgerOk(s)
  {
    hide LedgerOk;
  }

  lemma SlotsKnown(s: State)
    requires Inv(s)
    ensures SlotsOk(s)
  {
    hide SlotsOk;
  }

  lemma PartwayKeys(s0: State, s: State, u: UserId, n: nat)
    requires Partway(s0, s, u, n)
    ensures s.tasks.Keys == s0.tasks.Keys && s.usage.Keys == s0.usage.Keys && s.quota == s0.quota && s.next == s0.next
    ensures forall t | t in s0.tasks :: s.tasks[t].owner == s0.tasks[t].owner
  {
  }
}
