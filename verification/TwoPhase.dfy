/** Jobs in two phases: candidates are read without locks, and acted on in a
    later transaction. Acting on an old candidate commits exactly if reading it
    afresh would find it again, also for the two jobs that do not look again. */
module TwoPhase {
  import opened TaskTypes
  import opened Holdings
  import opened Rounds
  import opened Protocol
  import opened Invariant
  import opened Steps
  import opened LedgerPreservation
  import opened Runs
  import opened History
  import opened Intent
  import opened Progress
  import Effects

  /** The candidate queries: what each job's unlocked read selects. */
  predicate Listed(s: State, a: Action) {
    match a
    case AClaim(t, rid, _) => t in s.tasks && s.tasks[t].status == Queued && LastIs(s.tasks[t].rounds, rid, RPending)
    case AReclaim(t, rid, lo, le) => t in s.tasks && LastUnder(s.tasks[t].rounds, rid, lo, le)
    case ACancelRound(t, rid) => t in s.tasks && LastIs(s.tasks[t].rounds, rid, RCancelling)
    case ASweepUpload(t) => t in s.tasks && s.tasks[t].status == Uploading
    case ASweepEnded(t) => t in s.tasks && s.tasks[t].status in {Completed, Failed, Aborted, Deleted}
    case AReconcile(t, p) =>
      t in s.tasks && s.tasks[t].status == Running && s.tasks[t].pending == Some(p) && !HasOpen(s.tasks[t].rounds)
    case AKill(t) => t in s.tasks && s.tasks[t].status in {Queued, Running}
    case ASuspend(t) => t in s.tasks && s.tasks[t].status in {Queued, Running}
    case _ => false
  }

  /** The read itself; two jobs have to remember what they read. */
  function Read(s: State, a: Action): State {
    match a
    case ASweepEnded(t) => ListEnded(s, t).state
    case AReconcile(t, _) => ListDrained(s, t).state
    case _ => s
  }

  // The retention sweep.

  lemma {:induction false} ListsGrow(s: State, actions: seq<Action>)
    requires Inv(s)
    ensures s.ended <= Run(s, actions).ended && s.drained <= Run(s, actions).drained
  {
    hide Inv, Apply, CellStep;
    if actions == [] {
    } else {
      var front := actions[..|actions| - 1];
      ListsGrow(s, front);
      RunOk(s, front);
      StepOk(Run(s, front), actions[|actions| - 1]);
    }
  }

  lemma ListingKeeps(s: State, t: TaskId)
    requires Inv(s)
    ensures Inv(ListEnded(s, t).state) && Inv(ListDrained(s, t).state)
  {
    hide Inv, Evolves, ListEnded, ListDrained;
    StepOk(s, AListEnded(t));
    StepOk(s, AListDrained(t));
  }

  lemma StillEnded(s: State, t: TaskId)
    requires Inv(s) && t in s.ended && t in s.tasks
    ensures s.tasks[t].status in {Completed, Failed, Aborted, Deleted}
  {
    hide Inv;
    EndedStays(s, t);
    Effects.EndsAreFour(s.tasks[t].status);
  }

  /** What the sweep leaves of a task. */
  predicate SweptClean(c: Cell) {
    c.rounds == [] && c.log.events == [] && c.log.messages == [] && Retained(c.reservations) == 0
    && Held(c.reservations, HoldActive) == 0 && Held(c.reservations, HoldRunning) == 0
    && Held(c.reservations, HoldRoot) == 0 && Held(c.reservations, HoldCopy) == 0
  }

  lemma SweepCleans(s: State, t: TaskId)
    requires t in s.ended && t in s.tasks
    ensures SweepEnded(s, t).outcome == Done
    ensures t in SweepEnded(s, t).state.tasks && SweptClean(SweepEnded(s, t).state.tasks[t])
  {
    hide FreeSlots;
    ReleaseKinds(s.tasks[t].reservations, EVERY_KIND);
  }

  /** Over runs: whatever happens between the sweep's read and its turn, the
      task is gone or still ended; the sweep commits exactly if it is there, and
      leaves nothing of its log, its rounds and its holds. */
  lemma EndedForever(s: State, t: TaskId, between: seq<Action>)
    requires Reachable(s) && ListEnded(s, t).outcome == Done
    ensures var s' := Run(ListEnded(s, t).state, between);
            && (t in s'.tasks ==> s'.tasks[t].status in {Completed, Failed, Aborted, Deleted})
            && (SweepEnded(s', t).outcome == Done <==> t in s'.tasks)
            && (t in s'.tasks ==> t in SweepEnded(s', t).state.tasks && SweptClean(SweepEnded(s', t).state.tasks[t]))
  {
    hide Reachable, Inv, Run, SweptClean;
    ReachableOk(s);
    var s0 := ListEnded(s, t).state;
    var s' := Run(s0, between);
    ListingKeeps(s, t);
    RunOk(s0, between);
    ListsGrow(s0, between);
    assert t in s'.ended;
    hide ListEnded;
    if t in s'.tasks {
      StillEnded(s', t);
      SweepCleans(s', t);
    }
  }

  // The reconciler.

  /** A drained task waits for its intent p: no round opens any more, and while
      it runs the intent stands. */
  predicate Waiting(s: State, t: TaskId, p: Terminal) {
    && t < s.next
    && (t in s.tasks ==>
          && !HasOpen(s.tasks[t].rounds) && s.tasks[t].status !in {Uploading, Queued, Ready}
          && (s.tasks[t].status == Running ==> s.tasks[t].pending == Some(p)))
  }

  lemma WaitingStays(s: State, a: Action, t: TaskId, p: Terminal)
    requires Inv(s) && Waiting(s, t, p)
    ensures Waiting(Apply(s, a).state, t, p)
  {
    hide Inv, Apply, RoundsMove, InputsFrozen, HasOpen;
    StepOk(s, a);
    var s' := Apply(s, a).state;
    if t in s'.tasks {
      if t in s.tasks {
        if s'.tasks[t].status == Running && s'.tasks[t] != s.tasks[t] { RunningSteps(s, a, t); }
      } else {
        GoneStays(s, a, t);
      }
    }
  }

  lemma {:induction false} WaitingAlong(s: State, actions: seq<Action>, t: TaskId, p: Terminal)
    requires Inv(s) && Waiting(s, t, p)
    ensures Waiting(Run(s, actions), t, p)
  {
    hide Inv, Apply, Waiting;
    if actions == [] {
    } else {
      var front := actions[..|actions| - 1];
      WaitingAlong(s, front, t, p);
      RunOk(s, front);
      WaitingStays(Run(s, front), actions[|actions| - 1], t, p);
    }
  }

  lemma ReconcileCommits(s: State, t: TaskId, p: Terminal)
    requires (t, p) in s.drained && Waiting(s, t, p)
    ensures Reconcile(s, t, p).outcome == Done <==> t in s.tasks && s.tasks[t].status == Running
    ensures Reconcile(s, t, p).outcome == Done ==>
              t in Reconcile(s, t, p).state.tasks
              && var c := Reconcile(s, t, p).state.tasks[t]; EndsAs(p, c.status, c.reason)
  {
    hide FreeSlots, Release, HasOpen;
  }

  /** Over runs: whatever happens between the reconciler's read and its turn, no
      round of the task is open again; the turn commits exactly if the task is
      still running, and then ends it as it was read. */
  lemma DrainedForever(s: State, t: TaskId, between: seq<Action>)
    requires Reachable(s) && ListDrained(s, t).outcome == Done
    ensures t in s.tasks && s.tasks[t].pending.Some?
    ensures var p, s' := s.tasks[t].pending.value, Run(ListDrained(s, t).state, between);
            && (t in s'.tasks ==> !HasOpen(s'.tasks[t].rounds) && s'.tasks[t].status !in {Uploading, Queued, Ready})
            && (Reconcile(s', t, p).outcome == Done <==> t in s'.tasks && s'.tasks[t].status == Running)
            && (Reconcile(s', t, p).outcome == Done ==>
                  t in Reconcile(s', t, p).state.tasks
                  && var c := Reconcile(s', t, p).state.tasks[t]; EndsAs(p, c.status, c.reason))
  {
    hide Reachable, Inv, Run, HasOpen, Reconcile;
    ReachableOk(s);
    var p, s0 := s.tasks[t].pending.value, ListDrained(s, t).state;
    ListingKeeps(s, t);
    Known(s, t);
    assert Waiting(s0, t, p);
    WaitingAlong(s0, between, t, p);
    ListsGrow(s0, between);
    assert (t, p) in Run(s0, between).drained;
    ReconcileCommits(Run(s0, between), t, p);
  }

  // All jobs.

  /** The transactions that look again find exactly what the read would. */
  lemma GuardIsFresh(s: State, a: Action)
    requires Inv(s)
    requires a.AClaim? || a.AReclaim? || a.ACancelRound? || a.ASweepUpload? || a.AKill? || a.ASuspend?
    ensures Apply(s, a).outcome == Done <==>
              Listed(s, a) && match a case AClaim(t, _, _) => CanClaim(s, t) case _ => true
  {
    hide Inv, TierStep, Put, Claimed, Reclaimed, Collected, Turn, Stopped;
    hide Create, UploadFiles, DeleteFile, Commit, Send, Finish, Delete, ListEnded, SweepEnded, PersistFact, Settle,
      FailDeadline, ListDrained, Reconcile, RegisterOutput, RevokeProvider, DeleteAccount, SetQuota;
    if a.task in s.tasks {
      CoupledKnown(s, a.task);
      TierDone(s, a.task);
    }
    FreeIsFound(s.slots);
  }

  predicate Job(a: Action) {
    a.AClaim? || a.AReclaim? || a.ACancelRound? || a.ASweepUpload? || a.ASweepEnded? || a.AReconcile? || a.AKill?
        || a.ASuspend?
  }

  lemma ListedIsJob(s: State, a: Action)
    requires Listed(s, a)
    ensures Job(a)
  {
  }

  /** A job's transaction commits or drops its candidate. */
  lemma CommitsOrDrops(s: State, a: Action)
    requires Job(a)
    ensures Apply(s, a).outcome in {Done, Dropped}
  {
    hide Put, GiveTier, Give, Claimed, Reclaimed, Collected, Turn, Stopped, Reconciled, Swept, HasOpen;
    hide Create, UploadFiles, DeleteFile, Commit, Send, Finish, Delete, ListEnded, PersistFact, Settle, FailDeadline,
      ListDrained, RegisterOutput, RevokeProvider, DeleteAccount, SetQuota;
  }

  lemma ReadKeeps(s: State, a: Action)
    requires Inv(s)
    ensures Inv(Read(s, a))
  {
    hide Inv, ListEnded, ListDrained;
    match a
    case ASweepEnded(t) => ListingKeeps(s, t);
    case AReconcile(t, _) => ListingKeeps(s, t);
    case _ =>
  }

  lemma SweepIsFresh(s: State, a: Action, between: seq<Action>)
    requires Reachable(s) && Listed(s, a) && a.ASweepEnded?
    ensures var s' := Run(Read(s, a), between); Apply(s', a).outcome == Done <==> Listed(s', a)
  {
    hide Reachable, Run, SweptClean, SweepEnded;
    EndedForever(s, a.task, between);
  }

  lemma ReconcileIsFresh(s: State, a: Action, between: seq<Action>)
    requires Reachable(s) && Listed(s, a) && a.AReconcile?
    ensures var s' := Run(Read(s, a), between); Apply(s', a).outcome == Done <==> Listed(s', a)
  {
    hide Reachable, Run, HasOpen, TierStep;
    var s' := Run(Read(s, a), between);
    DrainedForever(s, a.task, between);
  }

  /** Two-phase correctness, for every job and however old the candidate is: its
      turn commits exactly if the read would list it again there and then (and,
      for a claim, if quota and a slot are left); otherwise nothing changes. */
  lemma StaleCandidate(s: State, a: Action, between: seq<Action>)
    requires Reachable(s) && Listed(s, a)
    ensures var s' := Run(Read(s, a), between);
            && (Apply(s', a).outcome == Done <==>
                  Listed(s', a) && match a case AClaim(t, _, _) => CanClaim(s', t) case _ => true)
            && (Apply(s', a).outcome != Done ==> Apply(s', a).state == s')
  {
    hide Reachable, Inv, Run, Evolves, Listed, Apply, Read;
    ReachableOk(s);
    ReadKeeps(s, a);
    var s' := Run(Read(s, a), between);
    RunOk(Read(s, a), between);
    ListedIsJob(s, a);
    StepOk(s', a);
    CommitsOrDrops(s', a);
    if a.ASweepEnded? {
      SweepIsFresh(s, a, between);
    } else if a.AReconcile? {
      ReconcileIsFresh(s, a, between);
    } else {
      GuardIsFresh(s', a);
    }
  }
}
