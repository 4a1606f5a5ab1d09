/** The background jobs: each walks a candidate list that was read without
    locks, one transaction per candidate. The lists may be arbitrarily old. */
module Jobs {
  import opened TaskTypes
  import opened Holdings
  import opened Protocol
  import opened Invariant
  import opened Runs
  import opened Intent
  import opened Databases
  import opened MassTransactions

  // What a job amounts to.

  function Claims(candidates: seq<(RoundId, TaskId)>, iid: Instance): seq<Action> {
    if candidates == [] then [] else
      var c := candidates[|candidates| - 1];
      Claims(candidates[..|candidates| - 1], iid) + [AClaim(c.1, c.0, iid)]
  }

  /** One row of the reclaim candidates, and whether the task's container was
      found dead. */
  datatype Lost = Lost(round: RoundId, task: TaskId, state: RoundState, owner: Option<Instance>, epoch: nat, dead: bool)

  function Reclaims(candidates: seq<Lost>): seq<Action> {
    if candidates == [] then [] else
      var c := candidates[|candidates| - 1];
      Reclaims(candidates[..|candidates| - 1]) +
        (if c.state != RCancelling then [AReclaim(c.task, c.round, c.owner, c.epoch)]
         else if c.dead then [ACancelRound(c.task, c.round)] else [])
  }

  function Expiries(candidates: seq<TaskId>): seq<Action> {
    if candidates == [] then [] else
      Expiries(candidates[..|candidates| - 1]) + [ASweepUpload(candidates[|candidates| - 1])]
  }

  function Cleanups(candidates: seq<TaskId>): seq<Action> {
    if candidates == [] then [] else
      Cleanups(candidates[..|candidates| - 1]) + [ASweepEnded(candidates[|candidates| - 1])]
  }

  function Reconciliations(candidates: seq<(TaskId, Terminal)>): seq<Action> {
    if candidates == [] then [] else
      var c := candidates[|candidates| - 1];
      Reconciliations(candidates[..|candidates| - 1]) + [AReconcile(c.0, c.1)]
  }

  function Suspensions(candidates: seq<TaskId>): seq<Action> {
    if candidates == [] then [] else
      Suspensions(candidates[..|candidates| - 1]) + [ASuspend(candidates[|candidates| - 1])]
  }

  method ExecuteRequest(db: Database, a: Action) returns (out: Outcome)
    requires Inv(db.View()) && UserStep(a)
    modifies db
    ensures Result(db.View(), out) == Apply(old(db.View()), a) && db.alarms == old(db.alarms)
  {
    hide Inv, Create, UploadFiles, DeleteFile, Commit, Send, Finish, Delete, Claim, Reclaim, CancelRound, SweepUpload,
      ListEnded, SweepEnded, PersistFact, Settle, FailDeadline, ListDrained, Reconcile, Stop, RegisterOutput,
      RevokeProvider,
      DeleteAccount, SetQuota;
    match a
    case ACreate(o, p, d, ok, tools) => out := db.CreateTask(o, p, d, ok, tools);
    case AUpload(o, t, ups) => out := db.UploadFiles(o, t, ups);
    case ADeleteFile(o, t, f) => out := db.DeleteFile(o, t, f);
    case ACommit(o, t) => out := db.CommitInput(o, t);
    case ASend(o, t, ok) => out := db.SendMessage(o, t, ok);
    case AAbort(o, t) => out := db.FinishTask(o, t, ToAborted);
    case AComplete(o, t) => out := db.FinishTask(o, t, ToCompleted);
    case ADelete(o, t) => out := db.DeleteTask(o, t);
  }

  method ExecuteSweep(db: Database, a: Action) returns (out: Outcome)
    requires Inv(db.View()) && SweepStep(a)
    modifies db
    ensures Result(db.View(), out) == Apply(old(db.View()), a) && db.alarms == old(db.alarms)
  {
    hide Inv, Create, UploadFiles, DeleteFile, Commit, Send, Finish, Delete, Claim, Reclaim, CancelRound, SweepUpload,
      ListEnded, SweepEnded, PersistFact, Settle, FailDeadline, ListDrained, Reconcile, Stop, RegisterOutput,
      RevokeProvider,
      DeleteAccount, SetQuota;
    match a
    case AClaim(t, r, i) => out := db.Claim(t, r, i);
    case AReclaim(t, r, lo, le) => out := db.Reclaim(t, r, lo, le);
    case ACancelRound(t, r) => out := db.CancelRound(t, r);
    case ASweepUpload(t) => out := db.SweepUpload(t);
    case AListEnded(t) => out := db.ListEnded(t);
    case ASweepEnded(t) =>
      if t !in db.ended { NotListed(db.View(), t); return Dropped; }
      out := db.SweepEnded(t);
  }

  method ExecuteInternal(db: Database, a: Action) returns (out: Outcome)
    requires Inv(db.View()) && !UserStep(a) && !SweepStep(a)
    modifies db
    ensures Result(db.View(), out) == Apply(old(db.View()), a) && db.alarms == old(db.alarms)
  {
    hide Inv, Create, UploadFiles, DeleteFile, Commit, Send, Finish, Delete, Claim, Reclaim, CancelRound, SweepUpload,
      ListEnded, SweepEnded, PersistFact, Settle, FailDeadline, ListDrained, Reconcile, Stop, RegisterOutput,
      RevokeProvider,
      DeleteAccount, SetQuota;
    match a
    case APersistFact(t, r, i, e, au) => out := db.PersistFact(t, r, i, e, au);
    case ASettle(t, r, i, e, tail, rev) => out := db.Settle(t, r, i, e, tail, rev);
    case AFailDeadline(t, r, i, e) => out := db.FailDeadline(t, r, i, e);
    case AListDrained(t) => out := db.ListDrained(t);
    case AReconcile(t, term) =>
      if (t, term) !in db.drained { NotDrained(db.View(), t, term); return Dropped; }
      out := db.Reconcile(t, term);
    case AKill(t) => out := db.Stop(t, ToolRevoked);
    case ASuspend(t) => out := db.Stop(t, AdminSuspended);
    case ARegisterOutput(o, t, r, e, n, sz) => out := db.RegisterOutput(o, t, r, e, n, sz);
    case ARevokeProvider(o, p) =>
      FailUnstartedTasks(db, o, p);
      RevocationDone(old(db.View()), o, p);
      out := Done;
    case ADeleteAccount(u) => out := TerminateTasksHook(db, u);
    case ASetQuota(u, ch) => out := db.SetQuota(u, ch);
  }

  /** Every step of the protocol is a method of the database: the statements
      compute exactly the step, refuse exactly when it is refused, and log no
      shortage on the way. */
  method Execute(db: Database, a: Action) returns (out: Outcome)
    requires Inv(db.View())
    modifies db
    ensures Result(db.View(), out) == Apply(old(db.View()), a) && db.alarms == old(db.alarms)
  {
    hide Inv, Apply;
    if UserStep(a) {
      out := ExecuteRequest(db, a);
    } else if SweepStep(a) {
      out := ExecuteSweep(db, a);
    } else {
      out := ExecuteInternal(db, a);
    }
  }

  lemma NotListed(s: State, t: TaskId)
    requires t !in s.ended
    ensures SweepEnded(s, t) == Result(s, Dropped)
  {
  }

  lemma NotDrained(s: State, t: TaskId, terminal: Terminal)
    requires (t, terminal) !in s.drained
    ensures Reconcile(s, t, terminal) == Result(s, Dropped)
  {
  }

  lemma RevocationDone(s: State, o: UserId, p: ProviderId)
    ensures RevokeProvider(s, o, p).outcome == Done
  {
    hide RevokeBelow;
  }

  // The jobs.

  lemma RunStart(s: State)
    ensures Run(s, []) == s && Commits(s, []) == 0
  {
  }

  /** One transaction for each candidate, in their order. */
  lemma {:induction false} ClaimsAre(candidates: seq<(RoundId, TaskId)>, iid: Instance)
    ensures Claims(candidates, iid)
         == seq(|candidates|, i requires 0 <= i < |candidates| => AClaim(candidates[i].1, candidates[i].0, iid))
  {
    if candidates == [] {
    } else {
      ClaimsAre(candidates[..|candidates| - 1], iid);
    }
  }

  lemma {:induction false} ReconciliationsAre(candidates: seq<(TaskId, Terminal)>)
    ensures Reconciliations(candidates)
         == seq(|candidates|, i requires 0 <= i < |candidates| => AReconcile(candidates[i].0, candidates[i].1))
  {
    if candidates == [] {
    } else {
      ReconciliationsAre(candidates[..|candidates| - 1]);
    }
  }

  lemma {:induction false} OnEachTask(candidates: seq<TaskId>)
    ensures var n := |candidates|;
            && Expiries(candidates) == seq(n, i requires 0 <= i < n => ASweepUpload(candidates[i]))
            && Cleanups(candidates) == seq(n, i requires 0 <= i < n => ASweepEnded(candidates[i]))
            && Suspensions(candidates) == seq(n, i requires 0 <= i < n => ASuspend(candidates[i]))
  {
    if candidates == [] {
    } else {
      OnEachTask(candidates[..|candidates| - 1]);
    }
  }

  /** A cancelling round is collected if its container is dead and left alone if
      it lives; any other is reclaimed; and nothing else is done. */
  lemma {:induction false} ReclaimsAre(candidates: seq<Lost>)
    ensures forall a :: a in Reclaims(candidates) <==> Due(a, candidates)
    ensures |Reclaims(candidates)| <= |candidates|
  {
    if candidates == [] {
    } else {
      var front, c := candidates[..|candidates| - 1], candidates[|candidates| - 1];
      ReclaimsAre(front);
      assert c in candidates && forall x | x in candidates :: x in front || x == c;
      forall a ensures Due(a, candidates) <==> Due(a, front) || Answers(a, c) {
        if Due(a, front) {
          var x :| x in front && Answers(a, x);
          assert x in candidates;
        }
      }
    }
  }

  predicate Due(a: Action, candidates: seq<Lost>) {
    exists c :: c in candidates && Answers(a, c)
  }

  predicate Answers(a: Action, c: Lost) {
    if c.state == RCancelling then c.dead && a == ACancelRound(c.task, c.round)
    else a == AReclaim(c.task, c.round, c.owner, c.epoch)
  }

  /** dispatch_once: claims what it still can; how many were claimed. */
  method DispatchOnce(db: Database, candidates: seq<(RoundId, TaskId)>, iid: Instance) returns (claimed: nat)
    requires Inv(db.View())
    modifies db
    ensures db.View() == Run(old(db.View()), Claims(candidates, iid)) && Inv(db.View()) && db.alarms == old(db.alarms)
    ensures claimed == Commits(old(db.View()), Claims(candidates, iid))
  {
    hide Inv, Run, Apply, Evolves, Commits;
    ghost var s0 := db.View();
    claimed := 0;
    RunStart(s0);
    for i := 0 to |candidates|
      invariant db.View() == Run(s0, Claims(candidates[..i], iid)) && Inv(db.View()) && db.alarms == old(db.alarms)
      invariant claimed == Commits(s0, Claims(candidates[..i], iid))
    {
      assert candidates[..i + 1][..i] == candidates[..i];
      var a := AClaim(candidates[i].1, candidates[i].0, iid);
      StepOk(db.View(), a);
      RunNext(s0, Claims(candidates[..i], iid), a);
      var out := Execute(db, a);
      if out == Done { claimed := claimed + 1; }
    }
    assert candidates[..|candidates|] == candidates;
  }

  /** reclaim_once: collects cancelling rounds whose container is dead, and
      fences the expired ones. */
  method ReclaimOnce(db: Database, candidates: seq<Lost>) returns (reclaimed: nat)
    requires Inv(db.View())
    modifies db
    ensures db.View() == Run(old(db.View()), Reclaims(candidates)) && Inv(db.View()) && db.alarms == old(db.alarms)
    ensures reclaimed == Commits(old(db.View()), Reclaims(candidates))
  {
    hide Inv, Run, Apply, Evolves, Commits;
    ghost var s0 := db.View();
    reclaimed := 0;
    RunStart(s0);
    for i := 0 to |candidates|
      invariant db.View() == Run(s0, Reclaims(candidates[..i])) && Inv(db.View()) && db.alarms == old(db.alarms)
      invariant reclaimed == Commits(s0, Reclaims(candidates[..i]))
    {
      assert candidates[..i + 1][..i] == candidates[..i];
      var c := candidates[i];
      if c.state == RCancelling && !c.dead {
        assert Reclaims(candidates[..i]) + [] == Reclaims(candidates[..i]);
        continue;
      }
      var a := if c.state != RCancelling then AReclaim(c.task, c.round, c.owner, c.epoch)
          else ACancelRound(c.task, c.round);
      StepOk(db.View(), a);
      RunNext(s0, Reclaims(candidates[..i]), a);
      var out := Execute(db, a);
      if out == Done { reclaimed := reclaimed + 1; }
    }
    assert candidates[..|candidates|] == candidates;
  }

  /** sweep_upload_ttl. */
  method SweepUploadTtl(db: Database, candidates: seq<TaskId>) returns (processed: nat)
    requires Inv(db.View())
    modifies db
    ensures db.View() == Run(old(db.View()), Expiries(candidates)) && Inv(db.View()) && db.alarms == old(db.alarms)
    ensures processed == Commits(old(db.View()), Expiries(candidates))
  {
    hide Inv, Run, Apply, Evolves, Commits;
    ghost var s0 := db.View();
    processed := 0;
    RunStart(s0);
    for i := 0 to |candidates|
      invariant db.View() == Run(s0, Expiries(candidates[..i])) && Inv(db.View()) && db.alarms == old(db.alarms)
      invariant processed == Commits(s0, Expiries(candidates[..i]))
    {
      assert candidates[..i + 1][..i] == candidates[..i];
      var a := ASweepUpload(candidates[i]);
      StepOk(db.View(), a);
      RunNext(s0, Expiries(candidates[..i]), a);
      var out := Execute(db, a);
      if out == Done { processed := processed + 1; }
    }
    assert candidates[..|candidates|] == candidates;
  }

  /** Something of the task is left to clean: an event, a round, a message or a
      held reservation. */
  predicate Dirty(c: Cell) {
    c.log.events != [] || c.rounds != [] || c.log.messages != [] || Returned(c.reservations, OfKinds(EVERY_KIND)) != []
  }

  /** ... that is, unless the sweep has been there before. */
  lemma DirtyIs(c: Cell)
    ensures Dirty(c) <==> c.log.events != [] || c.log.messages != [] || c.rounds != []
                          || exists r :: r in c.reservations && r.held
  {
    HeldIsReturned(c.reservations);
  }

  lemma {:induction false} HeldIsReturned(rs: seq<Reservation>)
    ensures Returned(rs, OfKinds(EVERY_KIND)) != [] <==> exists r :: r in rs && r.held
  {
    if rs == [] {
    } else {
      var front, r := rs[..|rs| - 1], rs[|rs| - 1];
      HeldIsReturned(front);
      assert r in rs && forall x | x in rs :: x in front || x == r;
      assert r.kind in EVERY_KIND by { EveryKind(r.kind); }
    }
  }

  lemma EveryKind(k: Kind)
    ensures k in EVERY_KIND
  {
    match k
    case HoldActive =>
    case HoldRunning =>
    case HoldRoot =>
    case HoldCopy =>
  }

  function DirtyAt(s: State, t: TaskId): nat {
    if t in s.ended && t in s.tasks && Dirty(s.tasks[t]) then 1 else 0
  }

  /** How many candidates still had something to clean when their turn came. */
  function Cleaned(s: State, candidates: seq<TaskId>): nat {
    if candidates == [] then 0 else
      var front := candidates[..|candidates| - 1];
      Cleaned(s, front) + DirtyAt(Run(s, Cleanups(front)), candidates[|candidates| - 1])
  }

  /** sweep_terminal_cleanup, over the candidates its read listed; a candidate
      with nothing left to clean is not counted. */
  method SweepTerminalCleanup(db: Database, candidates: seq<TaskId>) returns (processed: nat)
    requires Inv(db.View())
    modifies db
    ensures db.View() == Run(old(db.View()), Cleanups(candidates)) && Inv(db.View()) && db.alarms == old(db.alarms)
    ensures processed == Cleaned(old(db.View()), candidates)
  {
    hide Inv, Run, Apply, Evolves, Commits, Dirty;
    ghost var s0 := db.View();
    processed := 0;
    RunStart(s0);
    for i := 0 to |candidates|
      invariant db.View() == Run(s0, Cleanups(candidates[..i])) && Inv(db.View()) && db.alarms == old(db.alarms)
      invariant processed == Cleaned(s0, candidates[..i])
    {
      assert candidates[..i + 1][..i] == candidates[..i];
      var t := candidates[i];
      var a := ASweepEnded(t);
      StepOk(db.View(), a);
      RunNext(s0, Cleanups(candidates[..i]), a);
      if t in db.ended && t in db.tasks && Dirty(db.tasks[t]) { processed := processed + 1; }
      var out := Execute(db, a);
    }
    assert candidates[..|candidates|] == candidates;
  }

  /** reconcile_pending_terminal, over the candidates its read listed. */
  method ReconcilePendingTerminal(db: Database, candidates: seq<(TaskId, Terminal)>) returns (finalized: nat)
    requires Inv(db.View())
    modifies db
    ensures db.View() == Run(old(db.View()), Reconciliations(candidates)) && Inv(db.View())
    ensures db.alarms == old(db.alarms)
    ensures finalized == Commits(old(db.View()), Reconciliations(candidates))
  {
    hide Inv, Run, Apply, Evolves, Commits;
    ghost var s0 := db.View();
    finalized := 0;
    RunStart(s0);
    for i := 0 to |candidates|
      invariant db.View() == Run(s0, Reconciliations(candidates[..i])) && Inv(db.View()) && db.alarms == old(db.alarms)
      invariant finalized == Commits(s0, Reconciliations(candidates[..i]))
    {
      assert candidates[..i + 1][..i] == candidates[..i];
      var a := AReconcile(candidates[i].0, candidates[i].1);
      StepOk(db.View(), a);
      RunNext(s0, Reconciliations(candidates[..i]), a);
      var out := Execute(db, a);
      if out == Done { finalized := finalized + 1; }
    }
    assert candidates[..|candidates|] == candidates;
  }

  /** run_suspension_cascade, the task side: how many tasks were flipped. */
  method RunSuspensionCascade(db: Database, candidates: seq<TaskId>) returns (flipped: nat)
    requires Inv(db.View())
    modifies db
    ensures db.View() == Run(old(db.View()), Suspensions(candidates)) && Inv(db.View()) && db.alarms == old(db.alarms)
    ensures flipped == Commits(old(db.View()), Suspensions(candidates))
  {
    hide Inv, Run, Apply, Evolves, Commits;
    ghost var s0 := db.View();
    flipped := 0;
    RunStart(s0);
    for i := 0 to |candidates|
      invariant db.View() == Run(s0, Suspensions(candidates[..i])) && Inv(db.View()) && db.alarms == old(db.alarms)
      invariant flipped == Commits(s0, Suspensions(candidates[..i]))
    {
      assert candidates[..i + 1][..i] == candidates[..i];
      var a := ASuspend(candidates[i]);
      StepOk(db.View(), a);
      RunNext(s0, Suspensions(candidates[..i]), a);
      var out := Execute(db, a);
      if out == Done { flipped := flipped + 1; }
    }
    assert candidates[..|candidates|] == candidates;
  }
}
