/** What the reservation ledger guarantees over whole runs: conservation, funding
    of every release, the concurrency bounds, and exactly where bytes leak. */
module Ledgers {
  import opened TaskTypes
  import opened Holdings
  import opened Rounds
  import opened Protocol
  import opened Invariant
  import opened MassPreservation
  import opened Runs
  import MapSum

  /** Conservation: in every reachable database each counter equals what the
      user's reservations hold, storage up to the unrefunded bytes, and the
      platform's bytes are the sum over the users. */
  lemma LedgersAgree(s: State, u: UserId)
    requires Reachable(s) && u in s.usage
    ensures s.usage[u].active == Sum(s.tasks, ActiveOf(u))
    ensures s.usage[u].running == Sum(s.tasks, RunningOf(u))
    ensures s.usage[u].storage == Sum(s.tasks, StorageOf(u)) + UnrefundedOf(s, u)
    ensures s.storage == MapSum.Total(Charges(s.usage)) <= s.maxStorage
  {
    hide Reachable, TasksOk, SlotsOk, ListsOk;
    ReachableOk(s);
  }

  // Release.

  lemma {:induction false} ReleaseUnion(rs: seq<Reservation>, a: set<Kind>, b: set<Kind>)
    ensures Release(Release(rs, OfKinds(a)), OfKinds(b)) == Release(rs, OfKinds(a + b))
  {
    if rs == [] {
    } else {
      var front, r := rs[..|rs| - 1], rs[|rs| - 1];
      ReleaseUnion(front, a, b);
      var r' := if Picks(OfKinds(a), r) then r.(held := false) else r;
      assert (Release(front, OfKinds(a)) + [r'])[..|front|] == Release(front, OfKinds(a));
    }
  }

  /** Two releases, in any order and however they overlap, are one release of
      the union: nothing is ever paid back twice. */
  lemma ReleasesCompose(t: TaskId, b: Books, first: set<Kind>, second: set<Kind>)
    ensures Give(t, Give(t, b, first), second) == Give(t, b, first + second)
  {
    ReleaseUnion(b.cell.reservations, first, second);
    ReleaseKinds(b.cell.reservations, first);
    assert FreeSlots(FreeSlots(b.slots, t), t) == FreeSlots(b.slots, t);
  }

  lemma WeightWithin(tasks: map<TaskId, Cell>, t: TaskId, m: Meter)
    requires t in tasks
    ensures 0 <= Weight(m, tasks[t]) <= Sum(tasks, m)
  {
    MapSum.TotalNonNegative(Weights(tasks, m));
    assert Weights(tasks, m)[t] == Weight(m, tasks[t]);
  }

  lemma ChargesNonNegative(s: State)
    requires LedgerOk(s)
    ensures forall u | u in s.usage :: 0 <= s.usage[u].storage <= s.storage
  {
    forall u | u in s.usage ensures 0 <= Charges(s.usage)[u] {
      StorageCovers(s.tasks, u);
      StorageSplit(s.tasks, u, s.usage[u], UnrefundedOf(s, u));
    }
    MapSum.TotalNonNegative(Charges(s.usage));
    assert forall u | u in s.usage :: Charges(s.usage)[u] == s.usage[u].storage;
  }

  /** The lower-bound predicates of every release hold before it runs: no
      counter is ever short of what a task's reservations hold. */
  predicate Funded(b: Books) {
    && b.usage.active >= Held(b.cell.reservations, HoldActive)
    && b.usage.running >= Held(b.cell.reservations, HoldRunning)
    && b.usage.storage >= Retained(b.cell.reservations)
    && b.storage >= Retained(b.cell.reservations)
  }

  lemma LedgerFunds(s: State, t: TaskId)
    requires LedgerOk(s) && t in s.tasks && s.tasks[t].owner in s.usage
    ensures Funded(BooksOf(s, t))
  {
    var u := s.tasks[t].owner;
    WeightWithin(s.tasks, t, ActiveOf(u));
    WeightWithin(s.tasks, t, RunningOf(u));
    WeightWithin(s.tasks, t, StorageOf(u));
    ChargesNonNegative(s);
  }

  lemma AlwaysFunded(s: State, t: TaskId)
    requires Inv(s) && t in s.tasks
    ensures Funded(BooksOf(s, t))
  {
    hide CellOk, SlotsOk, ListsOk, LedgerOk;
    LedgerFunds(s, t);
  }

  /** Deleting an account takes exactly the bytes its tasks held off the
      platform, and leaves the user charged for the unrefunded ones alone. */
  lemma AccountGone(s: State, u: UserId)
    requires Reachable(s) && DeleteAccount(s, u).outcome == Done
    ensures var s' := DeleteAccount(s, u).state;
            && s'.usage[u] == Usage(0, 0, UnrefundedOf(s, u))
            && s'.storage == s.storage - Sum(s.tasks, StorageOf(u))
            && (forall t :: !Owns(s', u, t))
            && (forall i | 0 <= i < |s'.slots| && s'.slots[i].Leased? :: !Owns(s, u, s'.slots[i].task))
  {
    hide CellOk, SlotsOk, ListsOk;
    ReachableOk(s);
    StorageSplit(s.tasks, u, s.usage[u], UnrefundedOf(s, u));
  }

  // Concurrency.

  lemma {:induction false} LeasedFit(ts: set<TaskId>, slots: seq<Slot>)
    requires forall t | t in ts :: Leased(t) in slots
    ensures |ts| <= |slots|
  {
    if slots == [] {
      assert ts == {};
    } else {
      var front, x := slots[..|slots| - 1], slots[|slots| - 1];
      var rest := if x.Leased? then ts - {x.task} else ts;
      LeasedFit(rest, front);
      if x.Leased? { assert ts <= rest + {x.task}; }
    }
  }

  function Executing(s: State): set<TaskId> {
    set t | t in s.tasks && s.tasks[t].status == Running && HasOpen(s.tasks[t].rounds)
  }

  lemma HoldsWhileOpen(s: State, t: TaskId)
    requires Inv(s) && t in s.tasks
    ensures HoldsSlot(s, t) <==> t in Executing(s)
  {
    hide LedgerOk, SlotsOk, ListsOk, Backed, RoundsOk;
  }

  lemma SlotOfTask(s: State, t: TaskId)
    requires SlotsOk(s) && t in s.tasks
    ensures HoldsSlot(s, t) <==> Leased(t) in s.slots
  {
  }

  /** The real concurrency bound: tasks with a round that runs, or is still
      cancelling under a running task, never outnumber the slots; each holds
      one slot of its own. */
  lemma SlotBound(s: State)
    requires Reachable(s)
    ensures |Executing(s)| <= |s.slots|
    ensures forall t | t in s.tasks :: t in Executing(s) <==> Leased(t) in s.slots
    ensures forall i, j | 0 <= i < j < |s.slots| && s.slots[i].Leased? && s.slots[j].Leased? ::
              s.slots[i].task != s.slots[j].task
  {
    hide Reachable, LedgerOk, ListsOk, CellOk, HoldsSlot, HasOpen;
    ReachableOk(s);
    forall t | t in s.tasks ensures t in Executing(s) <==> Leased(t) in s.slots {
      HoldsWhileOpen(s, t);
      SlotOfTask(s, t);
    }
    LeasedFit(Executing(s), s.slots);
  }
}
