/** One task's transaction, lifted to the whole database: if its books balance,
    every ledger equation of the database survives. */
module Conservation {
  import opened TaskTypes
  import opened Holdings
  import opened Protocol
  import opened Invariant
  import MapSum

  /** The slot table follows the task's running reservation. */
  predicate SlotsFollow(slots: seq<Slot>, slots': seq<Slot>, t: TaskId, held: nat, held': nat) {
    if held' == held then slots' == slots
    else if held' < held then slots' == FreeSlots(slots, t)
    else exists k :: 0 <= k < |slots| && slots[k] == Free && slots' == slots[k := Leased(t)]
  }

  /** Each counter moved by what the task's held reservations moved. */
  predicate Balanced(t: TaskId, b: Books, b': Books) {
    var rs, rs' := b.cell.reservations, b'.cell.reservations;
    && b'.usage.active - b.usage.active == Held(rs', HoldActive) - Held(rs, HoldActive)
    && b'.usage.running - b.usage.running == Held(rs', HoldRunning) - Held(rs, HoldRunning)
    && b'.usage.storage - b.usage.storage == Retained(rs') - Retained(rs)
    && b'.storage - b.storage == Retained(rs') - Retained(rs)
    && SlotsFollow(b.slots, b'.slots, t, Held(rs, HoldRunning), Held(rs', HoldRunning))
  }

  lemma SumPut(tasks: map<TaskId, Cell>, t: TaskId, c: Cell, m: Meter)
    ensures Sum(tasks[t := c], m) == Sum(tasks, m) + Weight(m, c) - (if t in tasks then Weight(m, tasks[t]) else 0)
  {
    MapSum.TotalPut(Weights(tasks, m), t, Weight(m, c));
    assert Weights(tasks[t := c], m) == Weights(tasks, m)[t := Weight(m, c)];
  }

  lemma ChargesPut(usage: map<UserId, Usage>, u: UserId, x: Usage)
    ensures MapSum.Total(Charges(usage[u := x]))
         == MapSum.Total(Charges(usage)) + x.storage - (if u in usage then usage[u].storage else 0)
  {
    MapSum.TotalPut(Charges(usage), u, x.storage);
    assert Charges(usage[u := x]) == Charges(usage)[u := x.storage];
  }

  /** Another user's equations do not read the task. */
  lemma OtherUser(tasks: map<TaskId, Cell>, t: TaskId, c: Cell, u: UserId, x: Usage, n: nat)
    requires t in tasks && c.owner == tasks[t].owner && u != c.owner
    requires UserOk(tasks, u, x, n)
    ensures UserOk(tasks[t := c], u, x, n)
  {
    SumPut(tasks, t, c, ActiveOf(u));
    SumPut(tasks, t, c, RunningOf(u));
    SumPut(tasks, t, c, StorageOf(u));
  }

  lemma OwnUser(tasks: map<TaskId, Cell>, t: TaskId, b: Books, b': Books, n: nat)
    requires t in tasks && tasks[t] == b.cell && b'.cell.owner == b.cell.owner
    requires Balanced(t, b, b')
    requires UserOk(tasks, b.cell.owner, b.usage, n)
    ensures UserOk(tasks[t := b'.cell], b.cell.owner, b'.usage, n)
  {
    SumPut(tasks, t, b'.cell, ActiveOf(b.cell.owner));
    SumPut(tasks, t, b'.cell, RunningOf(b.cell.owner));
    SumPut(tasks, t, b'.cell, StorageOf(b.cell.owner));
  }

  lemma UsersPut(s: State, t: TaskId, b: Books, u: UserId)
    requires t in s.tasks && b.cell.owner == s.tasks[t].owner
    requires u in s.usage && b.cell.owner in s.usage
    requires UserOk(s.tasks, u, s.usage[u], UnrefundedOf(s, u))
    requires Balanced(t, BooksOf(s, t), b)
    ensures UserOk(s.tasks[t := b.cell], u, if u == b.cell.owner then b.usage else s.usage[u], UnrefundedOf(s, u))
  {
    if u == b.cell.owner {
      OwnUser(s.tasks, t, BooksOf(s, t), b, UnrefundedOf(s, u));
    } else {
      OtherUser(s.tasks, t, b.cell, u, s.usage[u], UnrefundedOf(s, u));
    }
  }

  lemma StoragePut(s: State, t: TaskId, b: Books)
    requires t in s.tasks && b.cell.owner == s.tasks[t].owner && b.cell.owner in s.usage
    requires s.storage == MapSum.Total(Charges(s.usage))
    requires Balanced(t, BooksOf(s, t), b)
    ensures b.storage == MapSum.Total(Charges(Put(s, t, b).usage))
  {
    ChargesPut(s.usage, b.cell.owner, b.usage);
  }

  lemma LedgerPut(s: State, t: TaskId, b: Books)
    requires LedgerOk(s) && t in s.tasks && s.tasks[t].owner in s.usage
    requires b.cell.owner == s.tasks[t].owner
    requires Balanced(t, BooksOf(s, t), b)
    requires b.storage <= s.maxStorage
    ensures LedgerOk(Put(s, t, b))
  {
    hide UserOk, Balanced, BooksOf;
    StoragePut(s, t, b);
    var o := b.cell.owner;
    forall u | u in s.usage
      ensures UserOk(s.tasks[t := b.cell], u, if u == o then b.usage else s.usage[u], UnrefundedOf(s, u))
    {
      UsersPut(s, t, b, u);
    }
  }

  lemma SlotsPut(s: State, t: TaskId, b: Books)
    requires SlotsOk(s) && t in s.tasks
    requires Held(s.tasks[t].reservations, HoldRunning) <= 1
    requires Held(b.cell.reservations, HoldRunning) <= 1
    requires SlotsFollow(s.slots, b.slots, t, Held(s.tasks[t].reservations, HoldRunning),
        Held(b.cell.reservations, HoldRunning))
    ensures SlotsOk(Put(s, t, b)) && |b.slots| == |s.slots|
  {
    var s' := Put(s, t, b);
    var held, held' := Held(s.tasks[t].reservations, HoldRunning), Held(b.cell.reservations, HoldRunning);
    if held == held' {
      forall i | 0 <= i < |s'.slots| && s'.slots[i].Leased? ensures HoldsSlot(s', s'.slots[i].task) {
        assert HoldsSlot(s, s.slots[i].task);
      }
      forall x | x in s'.tasks && HoldsSlot(s', x) ensures Leased(x) in s'.slots {
        assert HoldsSlot(s, x);
      }
    } else if held' < held {
      SlotsFreed(s, t, b);
    } else {
      SlotsTaken(s, t, b);
    }
  }

  lemma SlotsFreed(s: State, t: TaskId, b: Books)
    requires SlotsOk(s) && t in s.tasks
    requires Held(b.cell.reservations, HoldRunning) == 0
    requires b.slots == FreeSlots(s.slots, t)
    ensures SlotsOk(Put(s, t, b))
  {
    var s' := Put(s, t, b);
    forall i | 0 <= i < |s'.slots| && s'.slots[i].Leased? ensures HoldsSlot(s', s'.slots[i].task) {
      assert s'.slots[i] == s.slots[i];
      assert HoldsSlot(s, s.slots[i].task);
    }
    forall x | x in s'.tasks && HoldsSlot(s', x) ensures Leased(x) in s'.slots {
      assert HoldsSlot(s, x);
      var i :| 0 <= i < |s.slots| && s.slots[i] == Leased(x);
      assert s'.slots[i] == Leased(x);
    }
  }

  lemma SlotsTaken(s: State, t: TaskId, b: Books)
    requires SlotsOk(s) && t in s.tasks
    requires Held(s.tasks[t].reservations, HoldRunning) == 0
    requires Held(b.cell.reservations, HoldRunning) == 1
    requires exists k :: 0 <= k < |s.slots| && s.slots[k] == Free && b.slots == s.slots[k := Leased(t)]
    ensures SlotsOk(Put(s, t, b)) && |b.slots| == |s.slots|
  {
    var s' := Put(s, t, b);
    var k :| 0 <= k < |s.slots| && s.slots[k] == Free && b.slots == s.slots[k := Leased(t)];
    forall i | 0 <= i < |s'.slots| && s'.slots[i].Leased? ensures HoldsSlot(s', s'.slots[i].task) {
      if i != k { assert HoldsSlot(s, s.slots[i].task); }
    }
    forall i, j | 0 <= i < j < |s'.slots| && s'.slots[i].Leased? && s'.slots[j].Leased?
      ensures s'.slots[i].task != s'.slots[j].task
    {
      if i == k { assert HoldsSlot(s, s.slots[j].task); }
      if j == k { assert HoldsSlot(s, s.slots[i].task); }
    }
    forall x | x in s'.tasks && HoldsSlot(s', x) ensures Leased(x) in s'.slots {
      if x == t {
        assert s'.slots[k] == Leased(t);
      } else {
        assert HoldsSlot(s, x);
        var i :| 0 <= i < |s.slots| && s.slots[i] == Leased(x);
        assert s'.slots[i] == Leased(x);
      }
    }
  }

  lemma ListsPut(s: State, s': State, t: TaskId, c: Cell)
    requires ListsOk(s) && t in s.tasks
    requires CellStep(s.tasks[t], c, s.next)
    requires s'.tasks == s.tasks[t := c] && s'.ended == s.ended && s'.drained == s.drained && s.next <= s'.next
    ensures ListsOk(s')
  {
  }

  lemma TasksPut(s: State, t: TaskId, b: Books, next: nat)
    requires TasksOk(s) && t in s.tasks && s.next <= next
    requires CellOk(b.cell, next) && b.cell.owner == s.tasks[t].owner
    ensures TasksOk(Put(s, t, b).(next := next))
  {
    hide CellOk;
    forall x | x in s.tasks ensures CellOk(s.tasks[x], next) {
      CellOkLater(s.tasks[x], s.next, next);
    }
  }

  lemma EvolvesPut(s: State, t: TaskId, b: Books, next: nat)
    requires t in s.tasks && s.next <= next && |b.slots| == |s.slots|
    requires CellStep(s.tasks[t], b.cell, s.next)
    ensures Evolves(s, Put(s, t, b).(next := next))
  {
    var s' := Put(s, t, b).(next := next);
    forall x | x in s.tasks ensures CellStep(s.tasks[x], s'.tasks[x], s.next) {
      if x != t { CellStill(s.tasks[x], s.next); }
    }
  }

  lemma PutFacts(s: State, t: TaskId, b: Books, next: nat)
    requires TasksOk(s) && t in s.tasks
    requires CellOk(b.cell, next)
    requires CellStep(s.tasks[t], b.cell, s.next)
    requires Balanced(t, BooksOf(s, t), b)
    ensures SlotsFollow(s.slots, b.slots, t, Held(s.tasks[t].reservations, HoldRunning),
        Held(b.cell.reservations, HoldRunning))
    ensures b.cell.owner == s.tasks[t].owner
    ensures s.tasks[t].owner in s.usage && s.tasks[t].owner in s.quota
    ensures Held(s.tasks[t].reservations, HoldRunning) <= 1
    ensures Held(b.cell.reservations, HoldRunning) <= 1
  {
  }

  /** The lifting lemma. */
  lemma PutOk(s: State, t: TaskId, b: Books, next: nat)
    requires Inv(s) && t in s.tasks && s.next <= next
    requires CellOk(b.cell, next)
    requires CellStep(s.tasks[t], b.cell, s.next)
    requires Balanced(t, BooksOf(s, t), b)
    requires b.storage <= s.maxStorage
    ensures Inv(Put(s, t, b).(next := next))
    ensures Evolves(s, Put(s, t, b).(next := next))
  {
    hide CellOk, CellStep, TasksOk, LedgerOk, SlotsOk, ListsOk, Balanced, SlotsFollow;
    PutFacts(s, t, b, next);
    var s1 := Put(s, t, b);
    var s' := s1.(next := next);
    assert LedgerOk(s') by { LedgerPut(s, t, b); LedgerReads(s1, s'); }
    assert SlotsOk(s') && |b.slots| == |s.slots| by { SlotsPut(s, t, b); SlotsReads(s1, s'); }
    assert ListsOk(s') by { ListsPut(s, s', t, b.cell); }
    assert TasksOk(s') by { TasksPut(s, t, b, next); }
    assert UsersOk(s');
    EvolvesPut(s, t, b, next);
  }

  lemma CellStill(c: Cell, bound: nat)
    ensures CellStep(c, c, bound)
  {
  }

  lemma LedgerReads(s: State, s': State)
    requires LedgerOk(s)
    requires s'.tasks == s.tasks && s'.usage == s.usage && s'.unrefunded == s.unrefunded
    requires s'.storage == s.storage && s'.maxStorage == s.maxStorage
    ensures LedgerOk(s')
  {
  }

  lemma SlotsReads(s: State, s': State)
    requires SlotsOk(s)
    requires s'.tasks == s.tasks && s'.slots == s.slots
    ensures SlotsOk(s')
  {
    forall t | t in s'.tasks && HoldsSlot(s', t) ensures Leased(t) in s'.slots {
      assert HoldsSlot(s, t);
    }
    forall i | 0 <= i < |s'.slots| && s'.slots[i].Leased? ensures HoldsSlot(s', s'.slots[i].task) {
      assert HoldsSlot(s, s.slots[i].task);
    }
  }

  /** Giving back whole kinds keeps the books balanced, whichever kinds and
      however often. */
  lemma GiveBalanced(t: TaskId, b: Books, kinds: set<Kind>)
    ensures Balanced(t, b, Give(t, b, kinds))
  {
    ReleaseKinds(b.cell.reservations, kinds);
  }

  /** A cell edit that leaves the reservations alone moves no counter. */
  lemma GiveAfterEdit(t: TaskId, b: Books, c: Cell, kinds: set<Kind>)
    requires c.reservations == b.cell.reservations
    ensures Balanced(t, b, Give(t, b.(cell := c), kinds))
    ensures Give(t, b.(cell := c), kinds).storage <= b.storage
  {
    GiveBalanced(t, b.(cell := c), kinds);
    ReleaseKinds(b.cell.reservations, kinds);
  }

  /** After the tier's release, the holds are those of the status in place. */
  lemma TierHolds(c: Cell, status: Status, occupies: bool, bound: nat)
    requires HoldsOk(c.reservations, status, occupies, bound)
    requires Unfinished(c.status) ==> Unfinished(status) && c.status in {Queued, Ready, Running}
                                      && status in {Queued, Ready, Running}
    ensures HoldsOk(Release(c.reservations, OfKinds(Tier(c.status))), c.status, false, bound)
  {
    ReleaseKinds(c.reservations, Tier(c.status));
  }

  lemma TierBacked(c: Cell, status: Status)
    requires Backed(c.reservations, c.files, status)
    requires Unfinished(c.status) ==> c.status in {Queued, Ready, Running} && status in {Queued, Ready, Running}
    ensures Backed(Release(c.reservations, OfKinds(Tier(c.status))), c.files, c.status)
  {
    ReleaseKinds(c.reservations, Tier(c.status));
  }
}
