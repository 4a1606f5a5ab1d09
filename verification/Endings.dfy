/** Where a request leads: to the end that was asked for, whatever happens in
    between, and how a lost round gets its three attempts. */
module Endings {
  import opened TaskTypes
  import opened Holdings
  import opened Rounds
  import opened Protocol
  import opened Invariant
  import opened Steps
  import opened Runs
  import opened History
  import opened Ledgers
  import opened Intent
  import opened Progress
  import opened EndedTasks
  import opened Overlap
  import opened Effects

  /** The task has ended as asked: aborted by its user, or completed. */
  predicate EndedSo(c: Cell, abort: bool) {
    if abort then c.status == Aborted && c.reason == Some(UserCancel) else c.status == Completed && c.reason == None
  }

  /** It has, or it still runs and remembers the request. */
  predicate Pursued(c: Cell, abort: bool) {
    || (c.status == Running && c.pending == Some(if abort then ToAborted else ToCompleted))
    || EndedSo(c, abort)
  }

  /** Only these may give the task another end. */
  predicate Intervenes(a: Action, t: TaskId) {
    (a.AAbort? || a.AComplete? || a.ADelete? || a.AKill? || a.ASuspend?) && a.task == t
  }

  lemma PursuedStays(s: State, a: Action, t: TaskId, abort: bool)
    requires Inv(s) && t in s.tasks && Pursued(s.tasks[t], abort) && !Intervenes(a, t) && t in Apply(s, a).state.tasks
    ensures Pursued(Apply(s, a).state.tasks[t], abort)
  {
    hide Inv, Apply, HasOpen, Says;
    var c, c' := s.tasks[t], Apply(s, a).state.tasks[t];
    if c' != c {
      if c.status == Running {
        RunningSteps(s, a, t);
      } else {
        EndedSteps(s, a, t);
        LingersSo(s, a, t);
      }
    }
  }

  /** What may still happen to an ended task leaves its end alone. */
  lemma LingersSo(s: State, a: Action, t: TaskId)
    requires t in s.tasks && !Unfinished(s.tasks[t].status) && Lingers(a, t) && !a.ADelete?
    requires t in Apply(s, a).state.tasks
    ensures var c, c' := s.tasks[t], Apply(s, a).state.tasks[t]; c'.status == c.status && c'.reason == c.reason
  {
    hide Apply, Says;
    if a.ACancelRound? { Collecting(s, t, a.rid); }
    if a.ASweepEnded? { SweepingEnded(s, t); }
    if Apply(s, a).outcome != Done { DroppedSame(s, a); }
  }

  lemma DroppedSame(s: State, a: Action)
    requires (a.ACancelRound? || a.ASweepEnded?) && Apply(s, a).outcome != Done
    ensures Apply(s, a).state == s
  {
  }

  lemma {:induction false} PursuedAlong(s: State, actions: seq<Action>, t: TaskId, abort: bool)
    requires Inv(s) && t in s.tasks && Pursued(s.tasks[t], abort)
    requires forall a | a in actions :: !Intervenes(a, t)
    ensures var s' := Run(s, actions); t < s'.next && (t in s'.tasks ==> Pursued(s'.tasks[t], abort))
  {
    hide Inv, Apply, Pursued, Intervenes, CellStep;
    if actions == [] {
      Known(s, t);
    } else {
      var front, a := actions[..|actions| - 1], actions[|actions| - 1];
      assert a in actions && forall x | x in front :: x in actions;
      PursuedAlong(s, front, t, abort);
      RunOk(s, front);
      StepOk(Run(s, front), a);
      if t !in Run(s, front).tasks {
        GoneStays(Run(s, front), a, t);
      } else if t in Run(s, actions).tasks {
        PursuedStays(Run(s, front), a, t, abort);
      }
    }
  }

  lemma AskedFor(s: State, owner: UserId, t: TaskId, abort: bool)
    requires Inv(s)
    requires Apply(s, if abort then AAbort(owner, t) else AComplete(owner, t)).outcome in {Done, Requested}
    ensures var s' := Apply(s, if abort then AAbort(owner, t) else AComplete(owner, t)).state;
            t in s'.tasks && Pursued(s'.tasks[t], abort)
  {
    hide Inv, Apply, HasOpen, Says;
    AskingToEnd(s, owner, t, abort);
    if s.tasks[t].status != Running {
      if s.tasks[t].status == Ready { RestIsClosed(s, t); }
      EndingAtOnce(s, owner, t, abort);
    }
  }

  lemma RestIsClosed(s: State, t: TaskId)
    requires Inv(s) && t in s.tasks && s.tasks[t].status == Ready
    ensures !HasOpen(s.tasks[t].rounds)
  {
    hide Inv, HoldsOk, Backed, Occupies, RowOk;
    Parts(s, t);
  }

  /** Whatever happens after an accepted abort or completion, unless the task is
      asked again, deleted or stopped by an administrator: as long as it is there
      it still runs with the request on it, or has ended just so. */
  lemma EndsAsAsked(s: State, owner: UserId, t: TaskId, abort: bool, between: seq<Action>)
    requires Reachable(s)
    requires Apply(s, if abort then AAbort(owner, t) else AComplete(owner, t)).outcome in {Done, Requested}
    requires forall a | a in between :: !Intervenes(a, t)
    ensures var s' := Run(Apply(s, if abort then AAbort(owner, t) else AComplete(owner, t)).state, between);
            t in s'.tasks ==> Pursued(s'.tasks[t], abort)
  {
    hide Inv, Apply, Run, Reachable, Pursued, Evolves;
    ReachableOk(s);
    var a := if abort then AAbort(owner, t) else AComplete(owner, t);
    StepOk(s, a);
    AskedFor(s, owner, t, abort);
    PursuedAlong(Apply(s, a).state, between, t, abort);
  }

  /** ... and there is a way to that end: collecting the round, listing the task
      and reconciling it. */
  lemma TheWayToTheEnd(s: State, owner: UserId, t: TaskId, abort: bool)
    requires Apply(s, if abort then AAbort(owner, t) else AComplete(owner, t)).outcome == Requested
    ensures t in s.tasks && |s.tasks[t].rounds| > 0
    ensures var s1 := Apply(s, if abort then AAbort(owner, t) else AComplete(owner, t)).state;
            var s2 := Apply(s1, ACancelRound(t, s.tasks[t].rounds[|s.tasks[t].rounds| - 1].id));
            var s3 := Apply(s2.state, AListDrained(t));
            var s4 := Apply(s3.state, AReconcile(t, if abort then ToAborted else ToCompleted));
            && s2.outcome == Done && s3.outcome == Done && s4.outcome == Done
            && t in s4.state.tasks && EndedSo(s4.state.tasks[t], abort)
  {
    hide Apply, Says, Released;
    AskingToEnd(s, owner, t, abort);
    var s1 := Apply(s, if abort then AAbort(owner, t) else AComplete(owner, t)).state;
    var rid := s.tasks[t].rounds[|s.tasks[t].rounds| - 1].id;
    Collecting(s1, t, rid);
    var s2 := Apply(s1, ACancelRound(t, rid)).state;
    Listing(s2, t);
    Reconciling(Apply(s2, AListDrained(t)).state, t, if abort then ToAborted else ToCompleted);
  }

  // Three attempts.

  /** Giving back the one running reservation frees its slot and its quota. */
  lemma GivesSlotBack(s: State, t: TaskId, c: Cell)
    requires t in s.tasks && c.owner == s.tasks[t].owner && c.reservations == s.tasks[t].reservations
    requires c.status == Queued && Held(c.reservations, HoldRunning) == 1 && Slot.Leased(t) in s.slots
    ensures var s' := TierStep(s, t, c, s.next).state;
            && UsageOf(s', c.owner).running == UsageOf(s, c.owner).running - 1
            && Free in s'.slots && s'.quota == s.quota
  {
    hide Held, BytesIf, Release;
    var k :| 0 <= k < |s.slots| && s.slots[k] == Slot.Leased(t);
    assert FreeSlots(s.slots, t)[k] == Free;
  }

  lemma RunsOnItsSlot(s: State, t: TaskId)
    requires Reachable(s) && t in s.tasks && s.tasks[t].status == Running && HasOpen(s.tasks[t].rounds)
    ensures Held(s.tasks[t].reservations, HoldRunning) == 1 && Slot.Leased(t) in s.slots
  {
    hide Reachable, Inv, HasOpen, RoundsOk, Backed;
    ReachableOk(s);
    Parts(s, t);
    SlotBound(s);
  }

  lemma LeasedRuns(s: State, t: TaskId, rid: RoundId, iid: Instance, epoch: nat)
    requires Inv(s) && Leases(s, t, rid, iid, epoch)
    ensures s.tasks[t].status == Running && HasOpen(s.tasks[t].rounds)
  {
    hide Inv, HoldsOk, Backed, Occupies, RowOk;
    Parts(s, t);
  }

  /** A round that lost its lease before its third attempt can be claimed again
      at once: the reclaim has given the slot and the running quota back. */
  lemma RetryClaims(s: State, t: TaskId, rid: RoundId, owner: Option<Instance>, epoch: nat, iid: Instance)
    requires Reachable(s) && Apply(s, AReclaim(t, rid, owner, epoch)).outcome == Done
    requires t in s.tasks && |s.tasks[t].rounds| > 0 && Last(s.tasks[t]).attempt < 3
    requires UsageOf(s, s.tasks[t].owner).running <= QuotaOf(s, s.tasks[t].owner).maxRunning
    ensures var s1 := Apply(s, AReclaim(t, rid, owner, epoch)).state;
            var r := Apply(s1, AClaim(t, rid, iid));
            && r.outcome == Done && Leases(r.state, t, rid, iid, epoch + 1)
            && Last(r.state.tasks[t]).attempt == Last(s.tasks[t]).attempt + 1
            && UsageOf(r.state, s.tasks[t].owner).running == UsageOf(s, s.tasks[t].owner).running
            && r.state.quota == s.quota && r.state.tasks[t].owner == s.tasks[t].owner
  {
    hide Reachable, Inv, Apply, Says, Released, HasOpen, TierStep, Held;
    ReachableOk(s);
    Reclaiming(s, t, rid, owner, epoch);
    LeasedRuns(s, t, rid, owner.value, epoch);
    RunsOnItsSlot(s, t);
    ReclaimIsTier(s, t, rid, owner, epoch);
    ReclaimedCell(s.tasks[t]);
    GivesSlotBack(s, t, Reclaimed(s.tasks[t]));
    Claiming(Apply(s, AReclaim(t, rid, owner, epoch)).state, t, rid, iid);
  }

  lemma ReclaimIsTier(s: State, t: TaskId, rid: RoundId, owner: Option<Instance>, epoch: nat)
    requires owner.Some? && Leases(s, t, rid, owner.value, epoch)
    ensures Apply(s, AReclaim(t, rid, owner, epoch)) == TierStep(s, t, Reclaimed(s.tasks[t]), s.next)
  {
    hide TierStep, Reclaimed;
  }

  lemma ClaimsNext(s: State, actions: seq<Action>, a: Action, t: TaskId, rid: RoundId)
    ensures Claims(s, actions + [a], t, rid)
         == Claims(s, actions, t, rid)
            + if a.AClaim? && a.task == t && a.rid == rid && Apply(Run(s, actions), a).outcome == Done then 1 else 0
    ensures Run(s, actions + [a]) == Apply(Run(s, actions), a).state
  {
    hide Run, Claim;
    RunNext(s, actions, a);
    assert (actions + [a])[..|actions|] == actions;
    if a.AClaim? { ClaimIsAction(Run(s, actions), a.task, a.rid, a.iid); }
  }

  /** One attempt more: the lease is lost, and the round claimed again. */
  lemma OneMoreAttempt(s: State, actions: seq<Action>, t: TaskId, rid: RoundId, epoch: nat)
    requires var m := Run(s, actions);
             && Reachable(m) && Leases(m, t, rid, 9, epoch) && Last(m.tasks[t]).attempt < 3
             && UsageOf(m, m.tasks[t].owner).running <= QuotaOf(m, m.tasks[t].owner).maxRunning
    ensures var actions' := actions + [AReclaim(t, rid, Some(9), epoch)] + [AClaim(t, rid, 9)];
            var m, m' := Run(s, actions), Run(s, actions');
            && Claims(s, actions', t, rid) == Claims(s, actions, t, rid) + 1
            && Reachable(m') && Leases(m', t, rid, 9, epoch + 1)
            && Last(m'.tasks[t]).attempt == Last(m.tasks[t]).attempt + 1
            && UsageOf(m', m'.tasks[t].owner).running <= QuotaOf(m', m'.tasks[t].owner).maxRunning
  {
    hide Reachable, Run, Claims, Apply, UsageOf, Says, Released;
    var m, lost, again := Run(s, actions), AReclaim(t, rid, Some(9), epoch), AClaim(t, rid, 9);
    Reclaiming(m, t, rid, Some(9), epoch);
    RetryClaims(m, t, rid, Some(9), epoch, 9);
    ClaimsNext(s, actions, lost, t, rid);
    ClaimsNext(s, actions + [lost], again, t, rid);
    ReachableOn(m, [lost] + [again]);
    RunConcat(s, actions, [lost] + [again]);
    assert actions + [lost] + [again] == actions + ([lost] + [again]);
  }

  lemma FirstRound(mid: MessageId, rid: RoundId)
    ensures Launched(mid, rid).rounds == [Round(rid, mid, RRunning, Some(9), 1, 1)] && Launched(mid, rid).owner == 0
  {
  }

  /** A round does get all of its three attempts: the bound is not an idle one. */
  lemma ThreeAttempts()
    ensures exists actions :: Claims(Init(1, 100), actions, 0, 2) == 3
  {
    hide Reachable, Run, Claims, Apply, Launched, Launch;
    var s, first := Init(1, 100), Launch(0);
    FirstDesk();
    LaunchDesk(s, 0, 0);
    FirstRound(1, 2);
    ReachableOn(s, first);
    FirstClaim(s);
    OneMoreAttempt(s, first, 0, 2, 1);
    var second := first + [AReclaim(0, 2, Some(9), 1)] + [AClaim(0, 2, 9)];
    OneMoreAttempt(s, second, 0, 2, 2);
    var third := second + [AReclaim(0, 2, Some(9), 2)] + [AClaim(0, 2, 9)];
    assert Claims(s, third, 0, 2) == 3;
  }

  lemma FirstClaim(s: State)
    requires s == Init(1, 100)
    ensures Claims(s, Launch(0), 0, 2) == 1
  {
    hide Run, Claims, Apply, Create, Commit, Claim, NewCell, Says;
    FirstDesk();
    var a, b, c := ACreate(0, 7, 0, true, true), ACommit(0, 0), AClaim(0, 2, 9);
    var s1 := Create(s, 0, 7, 0, true, true).state;
    var s2 := Commit(s1, 0, 0).state;
    CreateDesk(s, 0, 0, 0);
    CommitDesk(s1, 0, 1, 1, 0, 1);
    ActionsAre(s, 0, 2);
    ActionsAre(s1, 0, 2);
    NoSteps(s);
    NoClaims(s);
    ClaimsNext(s, [], a, 0, 2);
    ClaimsNext(s, [a], b, 0, 2);
    ClaimsNext(s, [a, b], c, 0, 2);
    assert [] + [a] == [a] && [a] + [b] == [a, b] && [a, b] + [c] == Launch(0);
    FirstClaimable(s2);
  }

  lemma NoClaims(s: State)
    ensures Claims(s, [], 0, 2) == 0
  {
  }

  lemma FirstClaimable(s: State)
    requires Desk(s, 1, 0, 1) && 0 in s.usage && 0 in s.quota && s.slots == [Free]
    requires 0 in s.tasks && s.tasks[0] == CommittedCell(NewCell(0, 7, 1), 2)
    ensures Apply(s, AClaim(0, 2, 9)).outcome == Done
  {
    hide Apply, Says;
    Claiming(s, 0, 2, 9);
    assert s.slots[0] == Free;
  }
}
