/** Where the system comes to rest: no slot and no counter is ever lost, so the
    queue stands still only if its quota or the slot table is empty, and from
    every reachable state the system's own steps lead there. */
module Liveness {
  import opened TaskTypes
  import opened Rounds
  import opened Protocol
  import opened Invariant
  import opened Runs
  import opened Ledgers
  import opened Quotas
  import opened Fencing
  import opened Progress

  /** No task has a next system step that commits. */
  ghost predicate Resting(s: State, iid: Instance) {
    forall t | t in s.tasks && NextStep(s, t, iid).Some? :: Apply(s, NextStep(s, t, iid).value).outcome != Done
  }

  /** Nothing uploads or runs, and what is queued could never start. */
  predicate Idle(s: State) {
    forall t | t in s.tasks ::
      && s.tasks[t].status !in {Uploading, Running}
      && (s.tasks[t].status == Queued ==> QuotaOf(s, s.tasks[t].owner).maxRunning == 0 || |s.slots| == 0)
  }

  lemma NextOfRunning(s: State, t: TaskId, iid: Instance)
    requires Inv(s) && t in s.tasks && s.tasks[t].status in {Uploading, Running}
    ensures NextStep(s, t, iid).Some? && !NextStep(s, t, iid).value.AClaim?
  {
    hide Inv;
    RoundsKnown(s, t);
  }

  lemma NextOfQueued(s: State, t: TaskId, iid: Instance)
    requires Inv(s) && t in s.tasks && s.tasks[t].status == Queued
    ensures NextStep(s, t, iid).Some? && NextStep(s, t, iid).value.AClaim?
  {
    hide Inv;
    RoundsKnown(s, t);
  }

  lemma RestingRunsNothing(s: State, iid: Instance, t: TaskId)
    requires Reachable(s) && Resting(s, iid) && t in s.tasks
    ensures s.tasks[t].status !in {Uploading, Running}
  {
    hide Reachable, Inv, Apply, NextStep;
    ReachableOk(s);
    if s.tasks[t].status in {Uploading, Running} {
      NextOfRunning(s, t, iid);
      NoZombies(s, t, iid);
    }
  }

  lemma LeasedExecutes(s: State, t: TaskId)
    requires Inv(s) && Leased(t) in s.slots
    ensures t in Executing(s)
  {
    hide LedgerOk, ListsOk, CellOk, HasOpen;
    assert HoldsSlot(s, t);
    HoldsWhileOpen(s, t);
  }

  /** Without executing tasks every slot is free and every running count zero. */
  lemma NothingExecutes(s: State, u: UserId)
    requires Inv(s) && Executing(s) == {}
    ensures forall i | 0 <= i < |s.slots| :: s.slots[i] == Free
    ensures u in s.usage ==> s.usage[u].running == 0
  {
    hide Inv, Executing;
    forall i | 0 <= i < |s.slots| ensures s.slots[i] == Free {
      if s.slots[i].Leased? { LeasedExecutes(s, s.slots[i].task); }
    }
    if u in s.usage {
      CountersCount(s, u);
      assert ExecutingOf(s, u) == {};
    }
  }

  /** No leaked slot and no leaked counter can starve the queue: at rest nothing
      uploads or runs, and a task is queued only if its owner may run nothing or
      the platform has no slot at all. */
  lemma RestIsIdle(s: State, iid: Instance)
    requires Reachable(s) && Resting(s, iid)
    ensures Idle(s)
  {
    hide Reachable, Inv, Apply, NextStep, Resting;
    ReachableOk(s);
    forall t | t in s.tasks
      ensures s.tasks[t].status !in {Uploading, Running}
      ensures s.tasks[t].status == Queued ==> QuotaOf(s, s.tasks[t].owner).maxRunning == 0 || |s.slots| == 0
    {
      RestingRunsNothing(s, iid, t);
      if s.tasks[t].status == Queued { QueuedAtRest(s, iid, t); }
    }
  }

  lemma QueuedAtRest(s: State, iid: Instance, t: TaskId)
    requires Reachable(s) && Resting(s, iid) && t in s.tasks && s.tasks[t].status == Queued
    ensures QuotaOf(s, s.tasks[t].owner).maxRunning == 0 || |s.slots| == 0
  {
    hide Reachable, Inv, Apply, NextStep;
    ReachableOk(s);
    NextOfQueued(s, t, iid);
    NoZombies(s, t, iid);
    forall x | x in s.tasks ensures s.tasks[x].status != Running {
      RestingRunsNothing(s, iid, x);
    }
    assert Executing(s) == {};
    NothingExecutes(s, s.tasks[t].owner);
    OwnersKnown(s);
    assert !CanClaim(s, t);
    if |s.slots| > 0 { assert s.slots[0] == Free && Free in s.slots; }
  }

  // The way there.

  /** The system's own steps: what NextStep proposes. */
  predicate Own(a: Action) {
    a.AClaim? || a.AReclaim? || a.ACancelRound? || a.ASweepUpload? || a.AListDrained? || a.AReconcile?
  }

  lemma NextIsOwn(s: State, t: TaskId, iid: Instance)
    requires t in s.tasks && NextStep(s, t, iid).Some?
    ensures var a := NextStep(s, t, iid).value; Own(a) && !Adds(a) && (Drives(a) || a == AListDrained(t))
    ensures NextStep(s, t, iid).value.AListDrained? ==>
              s.tasks[t].status == Running && !HasOpen(s.tasks[t].rounds) && s.tasks[t].pending.Some?
  {
  }

  /** From a reachable state that is not at rest, one or two of the system's
      steps lower the measure. */
  lemma OneMore(s: State, t: TaskId, iid: Instance) returns (actions: seq<Action>)
    requires Reachable(s) && t in s.tasks && NextStep(s, t, iid).Some?
    requires Apply(s, NextStep(s, t, iid).value).outcome == Done
    ensures forall a | a in actions :: Own(a)
    ensures TotalWork(Run(s, actions)) < TotalWork(s)
  {
    hide Reachable, Inv, Apply, NextStep, TotalWork;
    ReachableOk(s);
    NextIsOwn(s, t, iid);
    var a := NextStep(s, t, iid).value;
    TotalFalls(s, a);
    RunNext(s, [], a);
    assert [] + [a] == [a];
    if a.AListDrained? {
      var b := AReconcile(t, s.tasks[t].pending.value);
      ListThenReconcile(s, t);
      var m := Apply(s, a).state;
      assert m == Run(s, [a]);
      RunOk(s, [a]);
      TotalFalls(m, b);
      RunNext(s, [a], b);
      actions := [a] + [b];
    } else {
      actions := [a];
    }
  }

  lemma ListThenReconcile(s: State, t: TaskId)
    requires Reachable(s) && t in s.tasks && s.tasks[t].status == Running && !HasOpen(s.tasks[t].rounds)
    requires s.tasks[t].pending.Some?
    ensures var m := Apply(s, AListDrained(t)).state;
            Apply(m, AReconcile(t, s.tasks[t].pending.value)).outcome == Done
  {
    hide Reachable, TierStep, HasOpen, Reconcile, ListDrained;
    DrainedEnds(s, t);
  }

  /** From every reachable state some schedule of the system's own steps reaches
      rest, and with it an idle system. */
  lemma {:induction false} ComesToRest(s: State, iid: Instance) returns (actions: seq<Action>)
    requires Reachable(s)
    ensures forall a | a in actions :: Own(a)
    ensures Resting(Run(s, actions), iid) && Idle(Run(s, actions))
    decreases TotalWork(s)
  {
    hide Reachable, Inv, Apply, NextStep, TotalWork, Idle;
    ReachableOk(s);
    TotalNonNegative(s);
    if Resting(s, iid) {
      actions := [];
      assert Run(s, []) == s;
      RestIsIdle(s, iid);
    } else {
      var t :| t in s.tasks && NextStep(s, t, iid).Some? && Apply(s, NextStep(s, t, iid).value).outcome == Done;
      var first := OneMore(s, t, iid);
      ReachableOn(s, first);
      var rest := ComesToRest(Run(s, first), iid);
      actions := first + rest;
      RunConcat(s, first, rest);
    }
  }
}
