/** Preservation for task creation, provider revocation and account deletion. */
module MassPreservation {
  import opened TaskTypes
  import opened Holdings
  import opened EventLog
  import opened Rounds
  import opened Protocol
  import opened Invariant
  import opened Conservation
  import opened Steps
  import MapSum

  // Creation.

  lemma NobodysSum(tasks: map<TaskId, Cell>, u: UserId)
    requires forall t | t in tasks :: tasks[t].owner != u
    ensures UserOk(tasks, u, Usage(0, 0, 0), 0)
  {
    MapSum.TotalZero(Weights(tasks, ActiveOf(u)));
    MapSum.TotalZero(Weights(tasks, RunningOf(u)));
    MapSum.TotalZero(Weights(tasks, StorageOf(u)));
  }

  lemma EnsureLedger(s: State, u: UserId)
    requires LedgerOk(s) && u !in s.usage && u !in s.unrefunded
    requires forall t | t in s.tasks :: s.tasks[t].owner != u
    ensures LedgerOk(Ensure(s, u))
  {
    hide UserOk;
    NobodysSum(s.tasks, u);
    ChargesPut(s.usage, u, Usage(0, 0, 0));
  }

  lemma EnsureLists(s: State, e: State)
    requires ListsOk(s) && e.tasks == s.tasks && e.next == s.next && e.ended == s.ended && e.drained == s.drained
    ensures ListsOk(e)
  {
  }

  lemma EnsureOk(s: State, u: UserId)
    requires Inv(s)
    ensures Inv(Ensure(s, u))
  {
    hide CellOk, SlotsOk, LedgerOk, ListsOk;
    var e := Ensure(s, u);
    SlotsReads(s, e);
    if u !in s.usage {
      EnsureLedger(s, u);
      EnsureLists(s, e);
    }
  }

  lemma NewHolds(bound: nat)
    ensures var rs := [Reservation(HoldActive, None, 0, true)];
            HoldsOk(rs, Uploading, false, bound) && Held(rs, HoldActive) == 1 && Held(rs, HoldRunning) == 0
                && Retained(rs) == 0
  {
    var rs: seq<Reservation> := [];
    assert rs + [Reservation(HoldActive, None, 0, true)] == [Reservation(HoldActive, None, 0, true)];
    HoldAdds(rs, Reservation(HoldActive, None, 0, true));
  }

  lemma NewCellOk(owner: UserId, provider: ProviderId, mid: MessageId, bound: nat)
    requires mid < bound
    ensures var c := NewCell(owner, provider, mid);
            && CellOk(c, bound) && c.owner == owner && c.status == Uploading && c.rounds == []
            && Held(c.reservations, HoldActive) == 1
            && Held(c.reservations, HoldRunning) == 0
            && Retained(c.reservations) == 0
  {
    NewHolds(bound);
    hide HoldsOk, Held, Retained;
    var log := Log(0, [], []);
    assert LogOk(log, Face(Uploading, None));
    EmitOk(log, Face(Uploading, None), MessageSaved(mid, ByUser, None));
    hide LogOk;
  }

  function Inserted(s: State, t: TaskId, c: Cell, next: nat): State {
    var u := UsageOf(s, c.owner);
    s.(tasks := s.tasks[t := c], usage := s.usage[c.owner := u.(active := u.active + 1)], next := next)
  }

  lemma InsertUser(tasks: map<TaskId, Cell>, t: TaskId, c: Cell, u: UserId, x: Usage, n: nat)
    requires t !in tasks && UserOk(tasks, u, x, n)
    requires Held(c.reservations, HoldActive) == 1 && Held(c.reservations, HoldRunning) == 0
    requires Retained(c.reservations) == 0
    ensures UserOk(tasks[t := c], u, if u == c.owner then x.(active := x.active + 1) else x, n)
  {
    SumPut(tasks, t, c, ActiveOf(u));
    SumPut(tasks, t, c, RunningOf(u));
    SumPut(tasks, t, c, StorageOf(u));
  }

  lemma InsertLedger(s: State, t: TaskId, c: Cell, next: nat)
    requires LedgerOk(s) && t !in s.tasks && c.owner in s.usage
    requires Held(c.reservations, HoldActive) == 1 && Held(c.reservations, HoldRunning) == 0
    requires Retained(c.reservations) == 0
    ensures LedgerOk(Inserted(s, t, c, next))
  {
    hide UserOk;
    var s' := Inserted(s, t, c, next);
    forall u | u in s.usage
      ensures UserOk(s'.tasks, u, if u == c.owner then s'.usage[c.owner] else s.usage[u], UnrefundedOf(s, u))
    {
      InsertUser(s.tasks, t, c, u, s.usage[u], UnrefundedOf(s, u));
    }
    ChargesPut(s.usage, c.owner, s'.usage[c.owner]);
  }

  lemma InsertSlots(s: State, t: TaskId, c: Cell, next: nat)
    requires SlotsOk(s) && t !in s.tasks && Held(c.reservations, HoldRunning) == 0
    ensures SlotsOk(Inserted(s, t, c, next))
  {
    var s' := Inserted(s, t, c, next);
    forall i | 0 <= i < |s'.slots| && s'.slots[i].Leased? ensures HoldsSlot(s', s'.slots[i].task) {
      assert HoldsSlot(s, s.slots[i].task);
    }
    forall x | x in s'.tasks && HoldsSlot(s', x) ensures Leased(x) in s'.slots {
      assert HoldsSlot(s, x);
    }
  }

  lemma InsertOk(s: State, c: Cell)
    requires Inv(s) && c.owner in s.usage && c.owner in s.quota
    requires CellOk(c, s.next + 2) && c.status == Uploading && c.rounds == []
    requires Held(c.reservations, HoldActive) == 1 && Held(c.reservations, HoldRunning) == 0
    requires Retained(c.reservations) == 0
    ensures Inv(Inserted(s, s.next, c, s.next + 2))
    ensures Evolves(s, Inserted(s, s.next, c, s.next + 2))
  {
    hide CellOk, CellStep, LedgerOk, SlotsOk, TasksOk, ListsOk;
    var s' := Inserted(s, s.next, c, s.next + 2);
    InsertTasks(s, c);
    InsertLedger(s, s.next, c, s.next + 2);
    InsertSlots(s, s.next, c, s.next + 2);
    InsertLists(s, s');
  }

  lemma InsertLists(s: State, s': State)
    requires ListsOk(s) && s.next <= s'.next && s'.ended == s.ended && s'.drained == s.drained
    requires forall t | t in s'.tasks && t < s.next :: t in s.tasks && s'.tasks[t] == s.tasks[t]
    ensures ListsOk(s')
  {
  }

  lemma InsertTasks(s: State, c: Cell)
    requires TasksOk(s) && CellOk(c, s.next + 2) && c.owner in s.usage && c.owner in s.quota
    ensures TasksOk(Inserted(s, s.next, c, s.next + 2)) && s.next !in s.tasks
    ensures forall x | x in s.tasks :: CellStep(s.tasks[x], s.tasks[x], s.next)
  {
    hide CellOk, CellStep;
    forall x | x in s.tasks
      ensures CellOk(s.tasks[x], s.next + 2) && CellStep(s.tasks[x], s.tasks[x], s.next)
    {
      CellOkLater(s.tasks[x], s.next, s.next + 2);
      CellStill(s.tasks[x], s.next);
    }
  }

  lemma DailyReads(s: State, daily: map<(UserId, int), nat>)
    requires Inv(s)
    ensures Inv(s.(daily := daily))
  {
    hide CellOk, UserOk;
    SlotsReads(s, s.(daily := daily));
  }

  lemma CreateOk(s: State, owner: UserId, provider: ProviderId, day: int, admitted: bool, toolsOn: bool)
    requires Inv(s)
    ensures Good(s, Create(s, owner, provider, day, admitted, toolsOn))
  {
    hide Inv, CellOk, CellStep, NewCell;
    var r := Create(s, owner, provider, day, admitted, toolsOn);
    if r.outcome != Done {
      StandsStill(s, r);
    } else {
      var e := Ensure(s, owner);
      EnsureOk(s, owner);
      var c := NewCell(owner, provider, s.next + 1);
      NewCellOk(owner, provider, s.next + 1, s.next + 2);
      InsertOk(e, c);
      var daily := e.daily[(owner, day) := DailyOf(s, owner, day) + 1];
      DailyReads(Inserted(e, s.next, c, s.next + 2), daily);
      assert r.state == Inserted(e, s.next, c, s.next + 2).(daily := daily);
    }
  }

  // Provider revocation.

  function RevokedRoundsOf(rs: seq<Round>): seq<Round> {
    if HasOpen(rs) then rs[|rs| - 1 := rs[|rs| - 1].(state := RCancelled)] else rs
  }

  lemma RevokedRounds(rs: seq<Round>, status: Status, pending: Option<Terminal>, bound: nat)
    requires status in {Uploading, Queued, Ready} && RoundsOk(rs, status, pending, bound)
    ensures RoundsOk(RevokedRoundsOf(rs), Failed, pending, bound)
    ensures RoundsMove(rs, RevokedRoundsOf(rs), bound)
  {
    if HasOpen(rs) {
      SetLastOk(rs, rs[|rs| - 1].(state := RCancelled), status, pending, Failed, pending, bound, bound);
    } else {
      SameRoundsOk(rs, status, pending, Failed, pending, bound, bound);
    }
  }

  lemma RevokedLog(c: Cell)
    requires Unfinished(c.status) && LogOk(c.log, Face(c.status, c.reason))
    ensures var c' := RevokedCell(c);
            && LogOk(c'.log, Face(Failed, Some(KeyRevoked))) && Extends(c.log, c'.log)
            && c'.(log := c.log) == c.(
                 status := Failed, reason := Some(KeyRevoked), reservations := Release(c.reservations,
                     OfKinds(EVERY_KIND)),
                 rounds := RevokedRoundsOf(c.rounds))
  {
    hide LogOk, Emit;
    var c0 := c.(reservations := Release(c.reservations, OfKinds(EVERY_KIND)));
    TurnOk(c0, Failed, Some(KeyRevoked));
    var c1 := Turn(c0, Failed, Some(KeyRevoked));
    if HasOpen(c.rounds) {
      SayOk(SetLast(c1, Last(c).(state := RCancelled)), RoundCancelled(None, Some(KeyRevoked)));
    }
  }

  lemma RoundsMoveOpen(rs: seq<Round>, bound: nat)
    ensures !HasOpen(RevokedRoundsOf(rs))
  {
  }

  lemma RevokedOk(c: Cell, bound: nat)
    requires CellOk(c, bound) && c.status in {Uploading, Queued, Ready}
    ensures CellOk(RevokedCell(c), bound) && CellStep(c, RevokedCell(c), bound)
  {
    hide LogOk, RoundsOk, RoundsMove, Extends;
    RevokedRounds(c.rounds, c.status, c.pending, bound);
    RevokedLog(c);
    hide RevokedCell;
    ReleaseKinds(c.reservations, EVERY_KIND);
    RoundsMoveOpen(c.rounds, bound);
  }

  lemma RevokeUser(s: State, t: TaskId, u: UserId)
    requires t in s.tasks && s.tasks[t].owner in s.usage && u in s.usage
    requires UserOk(s.tasks, u, s.usage[u], UnrefundedOf(s, u))
    requires Held(s.tasks[t].reservations, HoldRunning) == 0
    ensures var c, x, n := s.tasks[t], s.usage[u], UnrefundedOf(s, u);
            UserOk(s.tasks[t := RevokedCell(c)], u,
                   if u == c.owner then x.(active := x.active - Held(c.reservations, HoldActive)) else x,
                   if u == c.owner then n + Retained(c.reservations) else n)
  {
    var c := s.tasks[t];
    ReleaseKinds(c.reservations, EVERY_KIND);
    SumPut(s.tasks, t, RevokedCell(c), ActiveOf(u));
    SumPut(s.tasks, t, RevokedCell(c), RunningOf(u));
    SumPut(s.tasks, t, RevokedCell(c), StorageOf(u));
  }

  lemma RevokeLedger(s: State, owner: UserId, p: ProviderId, t: TaskId)
    requires LedgerOk(s) && t in s.tasks && Unstarted(s.tasks[t], owner, p) && owner in s.usage
    requires Held(s.tasks[t].reservations, HoldRunning) == 0
    ensures LedgerOk(RevokeOne(s, owner, p, t))
  {
    hide UserOk, RevokedCell;
    var c, s' := s.tasks[t], RevokeOne(s, owner, p, t);
    RevokedForm(s, owner, p, t);
    forall u | u in s.usage
      ensures UserOk(s'.tasks, u, s'.usage[u], UnrefundedOf(s', u))
    {
      RevokeUser(s, t, u);
    }
    ChargesPut(s.usage, owner, s'.usage[owner]);
  }

  lemma RevokedForm(s: State, owner: UserId, p: ProviderId, t: TaskId)
    requires t in s.tasks && Unstarted(s.tasks[t], owner, p)
    ensures RevokeOne(s, owner, p, t).tasks == s.tasks[t := RevokedCell(s.tasks[t])]
  {
  }

  lemma RevokeSlots(s: State, owner: UserId, p: ProviderId, t: TaskId)
    requires SlotsOk(s) && t in s.tasks && Unstarted(s.tasks[t], owner, p)
    requires Held(s.tasks[t].reservations, HoldRunning) == 0
    ensures SlotsOk(RevokeOne(s, owner, p, t))
  {
    RevokedForm(s, owner, p, t);
    ReleaseKinds(s.tasks[t].reservations, EVERY_KIND);
    var b := BooksOf(s, t).(cell := RevokedCell(s.tasks[t]));
    SlotsPut(s, t, b);
    SlotsReads(Put(s, t, b), RevokeOne(s, owner, p, t));
  }

  lemma RevokeOneOk(s: State, owner: UserId, p: ProviderId, t: TaskId)
    requires Inv(s)
    ensures Inv(RevokeOne(s, owner, p, t)) && Evolves(s, RevokeOne(s, owner, p, t))
  {
    var s' := RevokeOne(s, owner, p, t);
    if t !in s.tasks || !Unstarted(s.tasks[t], owner, p) {
      StepsSame(s);
    } else {
      hide Inv, LedgerOk, SlotsOk, ListsOk, CellStep, RevokeOne, RevokedCell;
      Known(s, t);
      RevokedOk(s.tasks[t], s.next);
      RevokedForm(s, owner, p, t);
      RevokeFrame(s, owner, p, t);
      assert Held(s.tasks[t].reservations, HoldRunning) == 0;
      hide CellOk;
      RevokeParts(s, owner, p, t);
    }
  }

  lemma RevokeFrame(s: State, owner: UserId, p: ProviderId, t: TaskId)
    requires owner in s.usage && t in s.tasks && Unstarted(s.tasks[t], owner, p)
    ensures var s' := RevokeOne(s, owner, p, t);
            && s'.usage.Keys == s.usage.Keys && s'.quota == s.quota && s'.next == s.next
            && s'.unrefunded.Keys == s.unrefunded.Keys + {owner}
            && s'.ended == s.ended && s'.drained == s.drained && s'.slots == s.slots && s'.maxStorage == s.maxStorage
  {
  }

  lemma RevokeParts(s: State, owner: UserId, p: ProviderId, t: TaskId)
    requires Inv(s) && t in s.tasks && Unstarted(s.tasks[t], owner, p) && owner in s.usage
    requires Held(s.tasks[t].reservations, HoldRunning) == 0
    requires CellOk(RevokedCell(s.tasks[t]), s.next) && CellStep(s.tasks[t], RevokedCell(s.tasks[t]), s.next)
    ensures Inv(RevokeOne(s, owner, p, t)) && Evolves(s, RevokeOne(s, owner, p, t))
  {
    hide CellOk, CellStep, RevokeOne, RevokedCell, LedgerOk, SlotsOk;
    var c', s' := RevokedCell(s.tasks[t]), RevokeOne(s, owner, p, t);
    RevokedForm(s, owner, p, t);
    RevokeFrame(s, owner, p, t);
    RevokeLedger(s, owner, p, t);
    RevokeSlots(s, owner, p, t);
    StepKeepsOwner(s.tasks[t], c', s.next);
    ListsPut(s, s', t, c');
    hide ListsOk;
    forall x | x in s.tasks ensures CellStep(s.tasks[x], s'.tasks[x], s.next) {
      if x != t { CellStill(s.tasks[x], s.next); }
    }
  }

  lemma StepsSame(s: State)
    ensures Evolves(s, s)
  {
    forall t | t in s.tasks ensures CellStep(s.tasks[t], s.tasks[t], s.next) {
      CellStill(s.tasks[t], s.next);
    }
  }

  lemma {:induction false} RevokeBelowOk(s: State, owner: UserId, p: ProviderId, n: nat)
    requires Inv(s)
    ensures Inv(RevokeBelow(s, owner, p, n)) && Evolves(s, RevokeBelow(s, owner, p, n))
    ensures RevokeBelow(s, owner, p, n).next == s.next
    ensures RevokeBelow(s, owner, p, n).tasks.Keys == s.tasks.Keys
    ensures forall t | n <= t && t in s.tasks :: RevokeBelow(s, owner, p, n).tasks[t] == s.tasks[t]
  {
    hide Inv, Evolves, RevokeOne;
    if n == 0 {
      StepsSame(s);
    } else {
      var m := RevokeBelow(s, owner, p, n - 1);
      RevokeBelowOk(s, owner, p, n - 1);
      RevokeOneOk(m, owner, p, n - 1);
      RevokeOneFrame(m, owner, p, n - 1);
      DisjointSteps(s, m, RevokeOne(m, owner, p, n - 1), n - 1);
    }
  }

  /** Two steps over the same tasks, where the second changes only a task the
      first left alone, make one step. */
  lemma DisjointSteps(s: State, m: State, s': State, n: nat)
    requires Evolves(s, m) && Evolves(m, s') && m.next == s.next
    requires m.tasks.Keys == s.tasks.Keys == s'.tasks.Keys
    requires forall t | t in s.tasks && t != n :: s'.tasks[t] == m.tasks[t]
    requires n in s.tasks ==> m.tasks[n] == s.tasks[n]
    ensures Evolves(s, s')
  {
    hide CellStep;
    forall t | t in s.tasks ensures CellStep(s.tasks[t], s'.tasks[t], s.next) {
      assert t in m.tasks && t in s'.tasks;
    }
  }

  lemma RevokeOneFrame(s: State, owner: UserId, p: ProviderId, n: nat)
    ensures var s' := RevokeOne(s, owner, p, n);
            && s'.next == s.next && s'.tasks.Keys == s.tasks.Keys
            && forall t | t in s.tasks && t != n :: s'.tasks[t] == s.tasks[t]
  {
  }

  lemma RevokeProviderOk(s: State, owner: UserId, p: ProviderId)
    requires Inv(s)
    ensures Good(s, RevokeProvider(s, owner, p))
  {
    hide Inv, Evolves;
    RevokeBelowOk(s, owner, p, s.next);
  }

  // Account deletion.

  function Remaining(tasks: map<TaskId, Cell>, u: UserId): map<TaskId, Cell> {
    map t | t in tasks && tasks[t].owner != u :: tasks[t]
  }

  function OwnedBy(tasks: map<TaskId, Cell>, u: UserId): set<TaskId> {
    set t | t in tasks && tasks[t].owner == u
  }

  lemma RemainingSum(tasks: map<TaskId, Cell>, u: UserId, m: Meter)
    requires forall t | t in tasks && tasks[t].owner == u :: Weight(m, tasks[t]) == 0
    ensures Sum(Remaining(tasks, u), m) == Sum(tasks, m)
  {
    MapSum.TotalDrop(Weights(tasks, m), OwnedBy(tasks, u));
    assert Weights(Remaining(tasks, u), m) == Weights(tasks, m) - OwnedBy(tasks, u);
  }

  lemma OthersRemain(tasks: map<TaskId, Cell>, u: UserId, v: UserId, x: Usage, n: nat)
    requires u != v && UserOk(tasks, v, x, n)
    ensures UserOk(Remaining(tasks, u), v, x, n)
  {
    RemainingSum(tasks, u, ActiveOf(v));
    RemainingSum(tasks, u, RunningOf(v));
    RemainingSum(tasks, u, StorageOf(v));
  }

  lemma StorageCovers(tasks: map<TaskId, Cell>, u: UserId)
    ensures 0 <= Sum(tasks, StorageOf(u))
  {
    MapSum.TotalNonNegative(Weights(tasks, StorageOf(u)));
  }

  lemma DeleteAccountLedger(s: State, u: UserId)
    requires LedgerOk(s) && u in s.usage && Owner(s, u)
    ensures LedgerOk(DeleteAccount(s, u).state)
  {
    hide UserOk;
    var s' := DeleteAccount(s, u).state;
    assert s'.tasks == Remaining(s.tasks, u);
    NobodysSum(s'.tasks, u);
    forall v | v in s'.usage ensures UserOk(s'.tasks, v, s'.usage[v], UnrefundedOf(s', v)) {
      if v == u {
        UnrefundedAlone(s'.tasks, u, UnrefundedOf(s, u));
      } else {
        OthersRemain(s.tasks, u, v, s.usage[v], UnrefundedOf(s, v));
      }
    }
    ChargesPut(s.usage, u, s'.usage[u]);
    StorageCovers(s.tasks, u);
    StorageSplit(s.tasks, u, s.usage[u], UnrefundedOf(s, u));
  }

  lemma UnrefundedAlone(tasks: map<TaskId, Cell>, u: UserId, n: nat)
    requires UserOk(tasks, u, Usage(0, 0, 0), 0)
    ensures UserOk(tasks, u, Usage(0, 0, n), n)
  {
  }

  lemma StorageSplit(tasks: map<TaskId, Cell>, u: UserId, x: Usage, n: nat)
    requires UserOk(tasks, u, x, n)
    ensures x.storage == Sum(tasks, StorageOf(u)) + n
  {
  }

  predicate Owner(s: State, u: UserId) {
    exists t :: t in s.tasks && s.tasks[t].owner == u
  }

  lemma DeleteAccountSlots(s: State, u: UserId)
    requires SlotsOk(s) && Owner(s, u)
    ensures SlotsOk(DeleteAccount(s, u).state)
  {
    var s' := DeleteAccount(s, u).state;
    forall i | 0 <= i < |s'.slots| && s'.slots[i].Leased? ensures HoldsSlot(s', s'.slots[i].task) {
      assert HoldsSlot(s, s.slots[i].task);
    }
    forall x | x in s'.tasks && HoldsSlot(s', x) ensures Leased(x) in s'.slots {
      assert HoldsSlot(s, x);
      var i :| 0 <= i < |s.slots| && s.slots[i] == Leased(x);
      assert s'.slots[i] == Leased(x);
    }
  }

  lemma DeleteAccountOk(s: State, u: UserId)
    requires Inv(s)
    ensures Good(s, DeleteAccount(s, u))
  {
    hide CellOk, CellStep, LedgerOk, SlotsOk, HasOpen;
    var r := DeleteAccount(s, u);
    if r.outcome != Done {
      StandsStill(s, r);
    } else {
      var t :| t in s.tasks && s.tasks[t].owner == u;
      DeleteAccountLedger(s, u);
      DeleteAccountSlots(s, u);
      forall x | x in s.tasks ensures CellStep(s.tasks[x], s.tasks[x], s.next) {
        CellStill(s.tasks[x], s.next);
      }
      assert r.state.usage.Keys == s.usage.Keys;
    }
  }
}
