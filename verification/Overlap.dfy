/** Deleting a running task frees its slot at once, while its round is still
    cancelling: open rounds can outnumber the slots, by exactly those rounds,
    and exactly by a claim of a slot that such a round still needs. */
module Overlap {
  import opened TaskTypes
  import opened Holdings
  import opened FileRules
  import opened Rounds
  import opened Protocol
  import opened Invariant
  import opened Runs
  import opened Ledgers
  import opened Fencing
  import opened Intent
  import opened Progress
  import opened TwoPhase

  /** Tasks with a round whose container may be alive: running or cancelling. */
  function Busy(s: State): set<TaskId> {
    set t | t in s.tasks && HasOpen(s.tasks[t].rounds) && Last(s.tasks[t]).state != RPending
  }

  /** Deleted tasks whose round has not been collected yet. */
  function Lingering(s: State): set<TaskId> {
    set t | t in s.tasks && s.tasks[t].status == Deleted && HasOpen(s.tasks[t].rounds)
  }

  lemma BusyKinds(s: State, t: TaskId)
    requires Inv(s) && t in s.tasks
    ensures t in Busy(s) <==> t in Executing(s) || t in Lingering(s)
  {
    hide Inv;
    RoundsKnown(s, t);
  }

  function FreeIn(slots: seq<Slot>): nat {
    if slots == [] then 0 else FreeIn(slots[..|slots| - 1]) + if slots[|slots| - 1] == Free then 1 else 0
  }

  /** Tasks with one slot each, and no other slot leased. */
  lemma {:induction false} LeasedExactly(ts: set<TaskId>, slots: seq<Slot>)
    requires forall t | t in ts :: Leased(t) in slots
    requires forall i | 0 <= i < |slots| && slots[i].Leased? :: slots[i].task in ts
    requires forall i, j | 0 <= i < j < |slots| && slots[i].Leased? && slots[j].Leased? ::
               slots[i].task != slots[j].task
    ensures |ts| + FreeIn(slots) == |slots|
  {
    if slots == [] {
      assert ts == {};
    } else {
      var front, x := slots[..|slots| - 1], slots[|slots| - 1];
      var rest := if x.Leased? then ts - {x.task} else ts;
      LeasedExactly(rest, front);
      if x.Leased? { assert ts == rest + {x.task}; }
    }
  }

  /** The exact count: rounds that may have a container are those under running
      tasks, one slot each, and those left cancelling by a deletion. */
  lemma BusyCount(s: State)
    requires Reachable(s)
    ensures Busy(s) == Executing(s) + Lingering(s) && Executing(s) !! Lingering(s)
    ensures |Busy(s)| + FreeIn(s.slots) == |s.slots| + |Lingering(s)|
  {
    hide Reachable, Inv, HasOpen, FreeIn;
    ReachableOk(s);
    forall t | t in s.tasks ensures t in Busy(s) <==> t in Executing(s) || t in Lingering(s) {
      BusyKinds(s, t);
    }
    SlotBound(s);
    LeasesKnown(s);
    LeasedExactly(Executing(s), s.slots);
  }

  lemma LeasesKnown(s: State)
    requires Inv(s)
    ensures forall i | 0 <= i < |s.slots| && s.slots[i].Leased? :: s.slots[i].task in s.tasks
  {
    hide CellOk, LedgerOk, ListsOk;
  }

  // When a step makes them outnumber the slots.

  lemma StartByUser(s: State, a: Action, t: TaskId)
    requires t in s.tasks && t in Apply(s, a).state.tasks && s.tasks[t].status == Queued
    requires UserStep(a) && Targets(a, t)
    ensures Apply(s, a).state.tasks[t].status != Running
  {
    hide HeldIf, FreeSlots, CommittedCell, HasOpen;
    hide Claim, Reclaim, CancelRound, SweepUpload, ListEnded, SweepEnded, PersistFact, Settle, FailDeadline,
      ListDrained, Reconcile, Stop, RegisterOutput, RevokeProvider, DeleteAccount, SetQuota;
  }

  lemma StartBySweep(s: State, a: Action, t: TaskId)
    requires t in s.tasks && t in Apply(s, a).state.tasks && s.tasks[t].status == Queued
    requires SweepStep(a) && Targets(a, t)
    ensures Apply(s, a).state.tasks[t].status == Running ==> a.AClaim? && Apply(s, a).outcome == Done
  {
    hide BooksOf, HeldIf, FreeSlots, Claimed;
    hide Create, UploadFiles, DeleteFile, Commit, Send, Finish, Delete, PersistFact, Settle, FailDeadline,
      ListDrained, Reconcile, Stop, RegisterOutput, RevokeProvider, DeleteAccount, SetQuota;
  }

  lemma StartByWrite(s: State, a: Action, t: TaskId)
    requires t in s.tasks && t in Apply(s, a).state.tasks && s.tasks[t].status == Queued && Coupled(s.tasks[t])
    requires !UserStep(a) && !SweepStep(a) && Targets(a, t)
    ensures Apply(s, a).state.tasks[t].status != Running
  {
    hide HeldIf, FreeSlots, Replaced;
    hide Create, UploadFiles, DeleteFile, Commit, Send, Finish, Delete, Claim, Reclaim, CancelRound, SweepUpload,
      ListEnded, SweepEnded, RevokeProvider, DeleteAccount, SetQuota;
  }

  lemma StartByRevocation(s: State, a: Action, t: TaskId)
    requires Inv(s) && t in s.tasks && t in Apply(s, a).state.tasks && s.tasks[t].status == Queued && a.ARevokeProvider?
    ensures Apply(s, a).state.tasks[t].status != Running
  {
    hide Inv, RevokeBelow;
    RevokedStatus(s, a.owner, a.provider, s.next, t);
  }

  lemma {:induction false} RevokedStatus(s: State, owner: UserId, p: ProviderId, n: nat, t: TaskId)
    requires t in s.tasks
    ensures var s' := RevokeBelow(s, owner, p, n);
            t in s'.tasks && s'.tasks[t].status in {s.tasks[t].status, Failed}
  {
    if n == 0 {
    } else {
      RevokedStatus(s, owner, p, n - 1, t);
    }
  }

  /** Only a claim makes a queued task run. */
  lemma OnlyClaimStarts(s: State, a: Action, t: TaskId)
    requires Inv(s) && t in s.tasks && t in Apply(s, a).state.tasks && s.tasks[t].status == Queued
    requires Apply(s, a).state.tasks[t].status == Running
    ensures a.AClaim? && a.task == t && Apply(s, a).outcome == Done
  {
    hide Inv, Apply;
    if a.ARevokeProvider? {
      StartByRevocation(s, a, t);
    } else if !Targets(a, t) {
      Elsewhere(s, a, t);
    } else if UserStep(a) {
      StartByUser(s, a, t);
    } else if SweepStep(a) {
      StartBySweep(s, a, t);
    } else {
      CoupledKnown(s, t);
      StartByWrite(s, a, t);
    }
  }

  /** A task's round comes to life only in place, out of the queue. */
  lemma BusyFromQueue(c: Cell, c': Cell, bound: nat, bound': nat)
    requires RoundsOk(c.rounds, c.status, c.pending, bound) && RoundsOk(c'.rounds, c'.status, c'.pending, bound')
    requires RoundsMove(c.rounds, c'.rounds, bound)
    requires HasOpen(c'.rounds) && Last(c').state != RPending
    requires !(HasOpen(c.rounds) && Last(c).state != RPending)
    ensures c.status == Queued && c'.status == Running
  {
    var n := |c.rounds| - 1;
    assert 0 < |c'.rounds| == |c.rounds|;
    assert RoundMove(c.rounds[n], c'.rounds[n]);
  }

  lemma BusyBefore(s: State, a: Action, t: TaskId)
    requires Inv(s) && t in Busy(Apply(s, a).state) && t !in Busy(s)
    ensures a.AClaim? && a.task == t && Apply(s, a).outcome == Done
  {
    hide Inv, Apply, HasOpen, RoundsMove, RoundsOk, InputsFrozen;
    var s' := Apply(s, a).state;
    StepOk(s, a);
    RoundsKnown(s', t);
    if t in s.tasks {
      RoundsKnown(s, t);
      assert CellStep(s.tasks[t], s'.tasks[t], s.next);
      BusyFromQueue(s.tasks[t], s'.tasks[t], s.next, s'.next);
      OnlyClaimStarts(s, a, t);
    } else {
      assert s'.tasks[t].rounds == [];
      NoneOpen();
    }
  }

  lemma NoneOpen()
    ensures !HasOpen([])
  {
  }

  lemma ClaimBusy(s: State, t: TaskId, rid: RoundId, iid: Instance)
    requires Inv(s) && Claim(s, t, rid, iid).outcome == Done
    ensures t !in Busy(s) && Busy(Claim(s, t, rid, iid).state) == Busy(s) + {t}
  {
    hide Inv, Claimed;
    ClaimRounds(s, t, rid, iid);
  }

  /** Only a committed claim adds a round that may have a container, and it adds
      one; no other step does. */
  lemma BusyStep(s: State, a: Action)
    requires Inv(s)
    ensures if a.AClaim? && Apply(s, a).outcome == Done
            then a.task !in Busy(s) && Busy(Apply(s, a).state) == Busy(s) + {a.task}
            else Busy(Apply(s, a).state) <= Busy(s)
  {
    hide Inv, Apply, Busy;
    if a.AClaim? && Apply(s, a).outcome == Done {
      ClaimIsAction(s, a.task, a.rid, a.iid);
      ClaimBusy(s, a.task, a.rid, a.iid);
    } else {
      forall t | t in Busy(Apply(s, a).state) ensures t in Busy(s) {
        if t !in Busy(s) { BusyBefore(s, a, t); }
      }
    }
  }

  /** No more rounds that may have a container than slots. */
  predicate Within(s: State) {
    |Busy(s)| <= |s.slots|
  }

  /** A claim that finds its candidate, quota and a slot, while every free slot
      stands for a round that is still lingering. */
  predicate Overruns(s: State, a: Action) {
    a.AClaim? && Listed(s, a) && CanClaim(s, a.task) && |Lingering(s)| == FreeIn(s.slots)
  }

  /** Step by step, such rounds stay within the slots except exactly there. */
  lemma OverrunStep(s: State, a: Action)
    requires Reachable(s) && Within(s)
    ensures Within(Apply(s, a).state) <==> !Overruns(s, a)
  {
    hide Reachable, Inv, Apply, Busy, Lingering, Listed, CanClaim, FreeIn;
    ReachableOk(s);
    StepOk(s, a);
    BusyStep(s, a);
    BusyCount(s);
    if a.AClaim? { GuardIsFresh(s, a); }
    if !(a.AClaim? && Apply(s, a).outcome == Done) { SubsetSize(Busy(Apply(s, a).state), Busy(s)); }
  }

  predicate WithinAt(s: State, actions: seq<Action>, i: nat)
    requires i <= |actions|
  {
    Within(Run(s, actions[..i]))
  }

  predicate OverrunsAt(s: State, actions: seq<Action>, i: nat)
    requires i < |actions|
  {
    Overruns(Run(s, actions[..i]), actions[i])
  }

  lemma OverrunAt(s: State, actions: seq<Action>, i: nat)
    requires Reachable(s) && i < |actions| && WithinAt(s, actions, i)
    ensures WithinAt(s, actions, i + 1) <==> !OverrunsAt(s, actions, i)
  {
    hide Reachable, Run, Apply, Within, Overruns;
    ReachableOn(s, actions[..i]);
    OverrunStep(Run(s, actions[..i]), actions[i]);
    RunNext(s, actions[..i], actions[i]);
    assert actions[..i + 1] == actions[..i] + [actions[i]];
  }

  lemma {:induction false} WithinUpTo(s: State, actions: seq<Action>, i: nat)
    requires Reachable(s) && Within(s) && i <= |actions|
    requires forall k | 0 <= k < |actions| :: !OverrunsAt(s, actions, k)
    ensures WithinAt(s, actions, i)
  {
    hide Reachable, Within, OverrunsAt;
    if i == 0 {
      assert actions[..0] == [];
      NoSteps(s);
    } else {
      WithinUpTo(s, actions, i - 1);
      OverrunAt(s, actions, i - 1);
    }
  }

  /** Over whole runs: they never outnumber the slots if and only if no claim of
      the run overruns. */
  lemma NeverOutnumber(s: State, actions: seq<Action>)
    requires Reachable(s) && Within(s)
    ensures (forall i | 0 <= i <= |actions| :: WithinAt(s, actions, i))
       <==> (forall i | 0 <= i < |actions| :: !OverrunsAt(s, actions, i))
  {
    hide Reachable, Within, WithinAt, OverrunsAt;
    if forall i | 0 <= i < |actions| :: !OverrunsAt(s, actions, i) {
      forall i | 0 <= i <= |actions| ensures WithinAt(s, actions, i) {
        WithinUpTo(s, actions, i);
      }
    }
    if forall i | 0 <= i <= |actions| :: WithinAt(s, actions, i) {
      forall i | 0 <= i < |actions| ensures !OverrunsAt(s, actions, i) {
        assert WithinAt(s, actions, i) && WithinAt(s, actions, i + 1);
        OverrunAt(s, actions, i);
      }
    }
  }

  // A run where they outnumber the slots.

  /** User 0's counters and limits, as a transaction of theirs would find them. */
  predicate Desk(s: State, active: int, running: int, started: nat) {
    && Ensure(s, 0).usage[0] == Usage(active, running, 0) && Ensure(s, 0).quota[0] == DEFAULT_QUOTA
    && DailyOf(s, 0, 0) == started && s.storage == 0 && s.maxStorage == 100
  }

  lemma CreateDesk(s: State, active: int, running: int, started: nat)
    requires Desk(s, active, running, started) && active < 3 && started < 5
    ensures var s' := Create(s, 0, 7, 0, true, true).state;
            && Desk(s', active + 1, running, started + 1) && 0 in s'.usage && 0 in s'.quota
            && s'.tasks == s.tasks[s.next := NewCell(0, 7, s.next + 1)] && s'.slots == s.slots && s'.next == s.next + 2
  {
    hide NewCell;
  }

  lemma CommitDesk(s: State, t: TaskId, mid: MessageId, active: int, running: int, started: nat)
    requires Desk(s, active, running, started) && 0 in s.usage && 0 in s.quota
    requires t in s.tasks && s.tasks[t] == NewCell(0, 7, mid)
    ensures var s' := Commit(s, 0, t).state;
            && Desk(s', active, running, started) && 0 in s'.usage && 0 in s'.quota
            && s'.tasks == s.tasks[t := CommittedCell(NewCell(0, 7, mid), s.next)] && s'.slots == s.slots
  {
    hide CommitStaged;
    assert LiveSize(s.tasks[t].files, Input) == 0;
  }

  function Launched(mid: MessageId, rid: RoundId): Cell {
    Claimed(CommittedCell(NewCell(0, 7, mid), rid), 9)
  }

  lemma ClaimDesk(s: State, t: TaskId, mid: MessageId, rid: RoundId, active: int, started: nat)
    requires Desk(s, active, 0, started) && 0 in s.usage && 0 in s.quota && s.slots == [Free]
    requires t in s.tasks && s.tasks[t] == CommittedCell(NewCell(0, 7, mid), rid)
    ensures var s' := Claim(s, t, rid, 9).state;
            && Desk(s', active, 1, started) && 0 in s'.usage && 0 in s'.quota
            && s'.tasks == s.tasks[t := Launched(mid, rid)] && s'.slots == [Leased(t)]
  {
    hide CommitStaged, LiveSize;
    assert FirstFree(s.slots, 0) == 0;
    assert s.slots[0 := Leased(t)] == [Leased(t)];
  }

  /** Creating, committing and claiming a task, by three actions. */
  function Launch(t: TaskId): seq<Action> {
    [ACreate(0, 7, 0, true, true), ACommit(0, t), AClaim(t, t + 2, 9)]
  }

  lemma RunThree(s: State, a: Action, b: Action, c: Action)
    ensures Run(s, [a, b, c]) == Apply(Apply(Apply(s, a).state, b).state, c).state
  {
    hide Apply;
    RunNext(s, [], a);
    RunNext(s, [a], b);
    RunNext(s, [a, b], c);
    assert [] + [a] == [a] && [a] + [b] == [a, b] && [a, b] + [c] == [a, b, c];
  }

  lemma ActionsAre(s: State, t: TaskId, rid: RoundId)
    ensures Apply(s, ACreate(0, 7, 0, true, true)) == Create(s, 0, 7, 0, true, true)
    ensures Apply(s, ACommit(0, t)) == Commit(s, 0, t)
    ensures Apply(s, AClaim(t, rid, 9)) == Claim(s, t, rid, 9)
    ensures Apply(s, ADelete(0, t)) == Delete(s, 0, t)
  {
    hide Create, Commit, Claim, Delete;
  }

  lemma LaunchDesk(s: State, active: int, started: nat)
    requires Desk(s, active, 0, started) && active < 3 && started < 5 && s.slots == [Free]
    ensures var s', t := Run(s, Launch(s.next)), s.next;
            && Desk(s', active + 1, 1, started + 1) && 0 in s'.usage && 0 in s'.quota
            && s'.tasks == s.tasks[t := Launched(t + 1, t + 2)] && s'.slots == [Leased(t)]
  {
    hide Desk, Create, Commit, Claim, Delete, NewCell, CommittedCell, Launched, Apply;
    var t := s.next;
    var s1 := Create(s, 0, 7, 0, true, true).state;
    CreateDesk(s, active, 0, started);
    CommitDesk(s1, t, t + 1, active + 1, 0, started + 1);
    var s2 := Commit(s1, 0, t).state;
    ClaimDesk(s2, t, t + 1, t + 2, active + 1, started + 1);
    RunThree(s, ACreate(0, 7, 0, true, true), ACommit(0, t), AClaim(t, t + 2, 9));
    ActionsAre(s, t, t + 2);
    ActionsAre(s1, t, t + 2);
    ActionsAre(s2, t, t + 2);
  }

  const LAUNCHED_HOLDS: seq<Reservation> := [
    Reservation(HoldActive, None, 0, true), Reservation(HoldRoot, None, 0, true),
        Reservation(HoldRunning, None, 0, true)
  ]

  lemma LaunchedHolds()
    ensures Held(LAUNCHED_HOLDS, HoldActive) == 1 && Held(LAUNCHED_HOLDS, HoldRunning) == 1
    ensures Retained(LAUNCHED_HOLDS) == 0
  {
    var a, b, c := LAUNCHED_HOLDS[0], LAUNCHED_HOLDS[1], LAUNCHED_HOLDS[2];
    HoldAdds([], a);
    HoldAdds([a], b);
    HoldAdds([a, b], c);
    assert [] + [a] == [a] && [a] + [b] == [a, b] && [a, b] + [c] == LAUNCHED_HOLDS;
  }

  lemma LaunchedForm(mid: MessageId, rid: RoundId)
    ensures var c := Launched(mid, rid);
            && c.owner == 0 && c.status == Running && c.reservations == LAUNCHED_HOLDS
            && |c.rounds| == 1 && c.rounds[0].state == RRunning
  {
    hide CommitStaged;
    assert LiveSize(NewCell(0, 7, mid).files, Input) == 0;
  }

  lemma LaunchedFacts(mid: MessageId, rid: RoundId)
    ensures var c := Launched(mid, rid);
            && c.owner == 0 && c.status == Running && HasOpen(c.rounds) && Last(c).state == RRunning
            && Held(c.reservations, HoldActive) == 1 && Held(c.reservations, HoldRunning) == 1
               && Retained(c.reservations) == 0
  {
    hide Launched, Held, HeldBytes;
    LaunchedForm(mid, rid);
    LaunchedHolds();
  }

  lemma DeleteDesk(s: State, t: TaskId, mid: MessageId, rid: RoundId, active: int, started: nat)
    requires Desk(s, active, 1, started) && 0 in s.usage && 0 in s.quota && s.slots == [Leased(t)]
    requires t in s.tasks && s.tasks[t] == Launched(mid, rid)
    ensures var s' := Delete(s, 0, t).state;
            && Desk(s', active - 1, 0, started) && s'.slots == [Free] && s'.tasks.Keys == s.tasks.Keys
            && s'.tasks[t].status == Deleted && HasOpen(s'.tasks[t].rounds)
            && s'.next == s.next
  {
    hide Release, Launched, Held, HeldBytes;
    LaunchedFacts(mid, rid);
    assert FreeSlots(s.slots, t) == [Free];
  }

  lemma FirstDesk()
    ensures var s := Init(1, 100); Desk(s, 0, 0, 0) && s.slots == [Free] && s.next == 0 && Reachable(s)
  {
    assert Init(1, 100) == Run(Init(1, 100), []);
  }

  lemma DeleteReaches(s: State, t: TaskId)
    requires Reachable(s)
    ensures Reachable(Delete(s, 0, t).state)
  {
    hide Reachable, Delete, Run;
    ReachableOn(s, [ADelete(0, t)]);
    RunNext(s, [], ADelete(0, t));
    ActionsAre(s, t, 0);
    assert [] + [ADelete(0, t)] == [ADelete(0, t)] && Run(s, []) == s by { NoSteps(s); }
  }

  lemma NoSteps(s: State)
    ensures Run(s, []) == s
  {
  }

  lemma TwoBusy(s: State, t: TaskId, u: TaskId)
    requires Reachable(s) && t != u && t in s.tasks && u in s.tasks
    requires s.tasks[t].status == Deleted && HasOpen(s.tasks[t].rounds)
    requires HasOpen(s.tasks[u].rounds) && Last(s.tasks[u]).state == RRunning
    ensures 2 <= |Busy(s)|
  {
    hide Reachable, Inv;
    ReachableOk(s);
    BusyKinds(s, t);
    assert {t, u} <= Busy(s) && |{t, u}| == 2;
    SubsetSize({t, u}, Busy(s));
  }

  lemma {:induction false} SubsetSize(small: set<TaskId>, big: set<TaskId>)
    requires small <= big
    ensures |small| <= |big|
  {
    assert big == small + (big - small);
  }

  /** With a single slot, deleting a running task and launching another leaves
      two rounds that may have a container. */
  lemma RoundsOutnumberSlots()
    ensures exists s :: Reachable(s) && |Busy(s)| > |s.slots|
  {
    hide Desk, Apply, Run, Launched, Launch, Delete, HasOpen, Reachable, Inv, Busy, Init;
    var s0 := Init(1, 100);
    FirstDesk();
    var s1 := Run(s0, Launch(0));
    LaunchDesk(s0, 0, 0);
    ReachableOn(s0, Launch(0));
    var s2 := Delete(s1, 0, 0).state;
    DeleteDesk(s1, 0, 1, 2, 1, 1);
    DeleteReaches(s1, 0);
    var n := s2.next;
    var s3 := Run(s2, Launch(n));
    LaunchDesk(s2, 0, 1);
    ReachableOn(s2, Launch(n));
    ReachableOk(s2);
    RoundsKnown(s2, 0);
    LaunchedFacts(n + 1, n + 2);
    TwoBusy(s3, 0, n);
    assert |s3.slots| == 1;
  }
}
