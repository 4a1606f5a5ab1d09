/** Every run of the protocol keeps the invariant. */
module Runs {
  import opened TaskTypes
  import opened Protocol
  import opened Invariant
  import opened Steps
  import opened Preservation
  import opened LedgerPreservation
  import opened MassPreservation

  /** Any transaction with any arguments, however stale the read they came
      from: the invariant survives, every task moves as a step may, and a
      transaction that does not commit changes nothing. */
  lemma StepOk(s: State, a: Action)
    requires Inv(s)
    ensures Good(s, Apply(s, a))
  {
    hide Inv, Good, Create, UploadFiles, DeleteFile, Commit, Send, Finish, Delete, Claim, Reclaim, CancelRound,
      SweepUpload, ListEnded, SweepEnded, PersistFact, Settle, FailDeadline, ListDrained, Reconcile, Stop,
      RegisterOutput, RevokeProvider, DeleteAccount, SetQuota;
    match a
    case ACreate(o, p, d, ok, tools) => CreateOk(s, o, p, d, ok, tools);
    case AUpload(o, t, ups) => UploadOk(s, o, t, ups);
    case ADeleteFile(o, t, f) => DeleteFileOk(s, o, t, f);
    case ACommit(o, t) => CommitTaskOk(s, o, t);
    case ASend(o, t, ok) => SendOk(s, o, t, ok);
    case AAbort(o, t) => FinishOk(s, o, t, ToAborted);
    case AComplete(o, t) => FinishOk(s, o, t, ToCompleted);
    case ADelete(o, t) => DeleteOk(s, o, t);
    case AClaim(t, r, i) => ClaimOk(s, t, r, i);
    case AReclaim(t, r, lo, le) => ReclaimOk(s, t, r, lo, le);
    case ACancelRound(t, r) => CancelRoundOk(s, t, r);
    case ASweepUpload(t) => SweepUploadOk(s, t);
    case AListEnded(t) => ListEndedOk(s, t);
    case ASweepEnded(t) => SweepEndedOk(s, t);
    case APersistFact(t, r, i, e, au) => PersistFactOk(s, t, r, i, e, au);
    case ASettle(t, r, i, e, tail, rev) => SettleOk(s, t, r, i, e, tail, rev);
    case AFailDeadline(t, r, i, e) => FailDeadlineOk(s, t, r, i, e);
    case AListDrained(t) => ListDrainedOk(s, t);
    case AReconcile(t, term) => ReconcileOk(s, t, term);
    case AKill(t) => StopOk(s, t, ToolRevoked);
    case ASuspend(t) => StopOk(s, t, AdminSuspended);
    case ARegisterOutput(o, t, r, e, n, sz) => RegisterOutputOk(s, o, t, r, e, n, sz);
    case ARevokeProvider(o, p) => RevokeProviderOk(s, o, p);
    case ADeleteAccount(u) => DeleteAccountOk(s, u);
    case ASetQuota(u, ch) => SetQuotaOk(s, u, ch);
  }

  lemma InitOk(slotCount: nat, maxStorage: nat)
    ensures Inv(Init(slotCount, maxStorage))
  {
    var s := Init(slotCount, maxStorage);
    assert Charges(s.usage) == map[];
  }

  lemma {:induction false} RunOk(s: State, actions: seq<Action>)
    requires Inv(s)
    ensures Inv(Run(s, actions))
  {
    hide Inv, Evolves, Apply;
    if actions == [] {
    } else {
      RunOk(s, actions[..|actions| - 1]);
      StepOk(Run(s, actions[..|actions| - 1]), actions[|actions| - 1]);
    }
  }

  /** A state some run reaches from an empty database. */
  ghost predicate Reachable(s: State) {
    exists n: nat, m: nat, actions: seq<Action> :: s == Run(Init(n, m), actions)
  }

  lemma ReachableOk(s: State)
    requires Reachable(s)
    ensures Inv(s)
  {
    hide Inv, Run;
    var n: nat, m: nat, actions: seq<Action> :| s == Run(Init(n, m), actions);
    InitOk(n, m);
    RunOk(Init(n, m), actions);
  }

  lemma {:induction false} RunConcat(s: State, first: seq<Action>, second: seq<Action>)
    ensures Run(Run(s, first), second) == Run(s, first + second)
  {
    hide Apply;
    if second == [] {
      assert first + second == first;
    } else {
      RunConcat(s, first, second[..|second| - 1]);
      assert (first + second)[..|first + second| - 1] == first + second[..|second| - 1];
    }
  }

  lemma ReachableOn(s: State, actions: seq<Action>)
    requires Reachable(s)
    ensures Reachable(Run(s, actions))
  {
    hide Run;
    var n: nat, m: nat, before: seq<Action> :| s == Run(Init(n, m), before);
    RunConcat(Init(n, m), before, actions);
  }

  /** How many steps of a run commit. */
  function Commits(s: State, actions: seq<Action>): nat {
    if actions == [] then 0 else
      var front, a := actions[..|actions| - 1], actions[|actions| - 1];
      Commits(s, front) + (if Apply(Run(s, front), a).outcome == Done then 1 else 0)
  }

  lemma RunNext(s: State, actions: seq<Action>, a: Action)
    ensures Run(s, actions + [a]) == Apply(Run(s, actions), a).state
    ensures Commits(s, actions + [a]) == Commits(s, actions) + if Apply(Run(s, actions), a).outcome
        == Done then 1 else 0
  {
    hide Apply;
    assert (actions + [a])[..|actions|] == actions;
  }
}
