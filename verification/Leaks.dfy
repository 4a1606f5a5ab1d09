/** Where bytes are charged that nothing holds: exactly the provider revocation. */
module Leaks {
  import opened TaskTypes
  import opened Holdings
  import opened FileRules
  import opened Protocol
  import opened Invariant
  import opened MassPreservation
  import opened Runs
  import opened Quotas

  function Stranded(s: State, owner: UserId, p: ProviderId, t: TaskId): nat {
    if t in s.tasks && Unstarted(s.tasks[t], owner, p) then Retained(s.tasks[t].reservations) else 0
  }

  function StrandedBelow(s: State, owner: UserId, p: ProviderId, n: nat): nat {
    if n == 0 then 0 else StrandedBelow(s, owner, p, n - 1) + Stranded(s, owner, p, n - 1)
  }

  lemma {:induction false} RevokeStrands(s: State, owner: UserId, p: ProviderId, n: nat)
    requires Inv(s)
    ensures UnrefundedOf(RevokeBelow(s, owner, p, n), owner) == UnrefundedOf(s, owner) + StrandedBelow(s, owner, p, n)
    ensures forall u | u != owner :: UnrefundedOf(RevokeBelow(s, owner, p, n), u) == UnrefundedOf(s, u)
  {
    hide Inv, Evolves, RevokedCell, Retained;
    if n == 0 {
    } else {
      RevokeStrands(s, owner, p, n - 1);
      RevokeBelowOk(s, owner, p, n - 1);
    }
  }

  lemma {:induction false} NothingStranded(s: State, owner: UserId, p: ProviderId, n: nat)
    ensures StrandedBelow(s, owner, p, n) == 0 <==> forall t | 0 <= t < n :: Stranded(s, owner, p, t) == 0
  {
    hide Stranded;
    if n == 0 {
    } else {
      NothingStranded(s, owner, p, n - 1);
    }
  }

  /** Bytes a user is charged for although no reservation holds them. */
  ghost function Gap(s: State, u: UserId): int {
    UsageOf(s, u).storage - Sum(s.tasks, StorageOf(u))
  }

  lemma GapIsUnrefunded(s: State, u: UserId)
    requires Inv(s) && u in s.usage
    ensures Gap(s, u) == UnrefundedOf(s, u)
  {
    hide CellOk, SlotsOk, ListsOk;
  }

  /** Revoking a provider leaks exactly the bytes that its unstarted tasks
      hold; a revocation refunds in full if and only if they hold none. */
  lemma RevokeLeaks(s: State, owner: UserId, p: ProviderId, u: UserId)
    requires Inv(s) && u in s.usage
    ensures var s' := RevokeProvider(s, owner, p).state;
            && Gap(s', u) == Gap(s, u) + (if u == owner then StrandedBelow(s, owner, p, s.next) else 0)
            && (Gap(s', owner) == Gap(s, owner) <==>
                forall t | t in s.tasks && Unstarted(s.tasks[t], owner, p) :: Retained(s.tasks[t].reservations) == 0)
  {
    hide Inv, RevokeBelow, Evolves, Retained;
    var s' := RevokeProvider(s, owner, p).state;
    RevokeBelowOk(s, owner, p, s.next);
    RevokeStrands(s, owner, p, s.next);
    assert u in s'.usage && (owner in s.usage <==> owner in s'.usage) by { RevokeNoExcess(s, owner, p, s.next); }
    GapIsUnrefunded(s, u);
    GapIsUnrefunded(s', u);
    GapOfOwner(s, owner);
    GapOfOwner(s', owner);
    NothingStranded(s, owner, p, s.next);
    StrandedAll(s, owner, p);
  }

  lemma StrandedAll(s: State, owner: UserId, p: ProviderId)
    requires Inv(s)
    ensures (forall t | 0 <= t < s.next :: Stranded(s, owner, p, t) == 0) <==>
            (forall t | t in s.tasks && Unstarted(s.tasks[t], owner, p) :: Retained(s.tasks[t].reservations) == 0)
  {
    hide CellOk, LedgerOk, SlotsOk, ListsOk, Retained;
    forall t | t in s.tasks && Unstarted(s.tasks[t], owner, p)
      ensures Stranded(s, owner, p, t) == Retained(s.tasks[t].reservations) && 0 <= t < s.next
    {
    }
  }

  lemma GapOfOwner(s: State, u: UserId)
    requires Inv(s)
    ensures Gap(s, u) == UnrefundedOf(s, u)
  {
    if u in s.usage {
      GapIsUnrefunded(s, u);
    } else {
      OwnersKnown(s);
      QuotaRowsExist(s);
      NobodysSum(s.tasks, u);
    }
  }

  /** No other transaction opens or closes a gap. */
  lemma OnlyRevocationLeaks(s: State, a: Action, u: UserId)
    requires Reachable(s) && !a.ARevokeProvider?
    ensures Gap(Apply(s, a).state, u) == Gap(s, u)
  {
    hide Inv, Gap, Evolves, Apply;
    ReachableOk(s);
    StepOk(s, a);
    GapOfOwner(s, u);
    GapOfOwner(Apply(s, a).state, u);
    DebtsStay(s, a);
  }

  lemma DebtsStay(s: State, a: Action)
    requires Inv(s) && !a.ARevokeProvider?
    ensures Apply(s, a).state.unrefunded == s.unrefunded
  {
    hide Inv, NoExcess, NewCell, Claimed, EvictSlots;
    if !(a.ACreate? || a.AClaim? || a.ASetQuota? || a.ADeleteAccount?) {
      hide Apply;
      FrugalStep(s, a);
    } else {
      hide UploadFiles, DeleteFile, Commit, Send, Finish, Delete, Reclaim, CancelRound, SweepUpload, ListEnded,
        SweepEnded, PersistFact, Settle, FailDeadline, ListDrained, Reconcile, Stop, RegisterOutput, RevokeProvider;
    }
  }

  const ONE_FILE: seq<Upload> := [Upload("a", 1)]

  function Uploaded(): State {
    Apply(Apply(Init(1, 100), ACreate(0, 7, 0, true, true)).state, AUpload(0, 0, ONE_FILE)).state
  }

  lemma CreatedFacts()
    ensures var s := Create(Init(1, 100), 0, 7, 0, true, true).state;
            && s.tasks == map[0 := NewCell(0, 7, 1)]
            && s.storage == 0 && s.maxStorage == 100 && s.usage == map[0 := Usage(1, 0, 0)]
               && s.quota == map[0 := DEFAULT_QUOTA]
            && s.unrefunded == map[] && s.next == 2
  {
    hide NewCell;
  }

  lemma UploadedFacts()
    ensures var s := Uploaded();
            && s.tasks.Keys == {0} && s.tasks[0].status == Uploading && s.tasks[0].owner == 0
               && s.tasks[0].provider == 7
            && s.tasks[0].initial.Some? && LiveSize(s.tasks[0].files, Input) == 1
            && s.tasks[0].reservations == [Reservation(HoldActive, None, 0, true)]
            && s.storage == 0 && s.maxStorage == 100 && s.usage == map[0 := Usage(1, 0, 0)]
               && s.quota == map[0 := DEFAULT_QUOTA]
            && s.unrefunded == map[] && s.next == 3
  {
    hide Create, Commit, Finish, Delete, Claim, Reclaim, CancelRound, SweepUpload, SweepEnded, Settle, FailDeadline,
      Reconcile, Stop, RegisterOutput, RevokeProvider, DeleteAccount, SetQuota, PersistFact, ListEnded, ListDrained,
      Send;
    CreatedFacts();
    BatchFits();
    hide ValidName, BatchNamesOk, BatchWithinLimits, Stage, LiveSize;
  }

  lemma BatchFits()
    ensures ValidName(ONE_FILE[0].name) && BatchNamesOk([], ONE_FILE) && BatchWithinLimits([], ONE_FILE)
    ensures LiveSize(Stage([], ONE_FILE, 2), Input) == 1
  {
    assert UploadBytes(ONE_FILE) == 1;
    StageTotals([], ONE_FILE, 2);
  }

  lemma CommittedFacts()
    ensures var s := Apply(Uploaded(), ACommit(0, 0)).state;
            && s.tasks.Keys == {0} && Unstarted(s.tasks[0], 0, 7) && s.next == 4
            && Retained(s.tasks[0].reservations) == 1 && 0 in s.usage && s.unrefunded == map[]
  {
    hide Uploaded, CommitStaged, LiveSize;
    UploadedFacts();
    var rs := [Reservation(HoldActive, None, 0, true)];
    assert Retained(rs) == 0;
    HoldAdds(rs, Reservation(HoldRoot, None, 1, true));
  }

  lemma RunFour(s: State, a: Action, b: Action, c: Action, d: Action)
    ensures Run(s, [a, b, c, d]) == Apply(Apply(Apply(Apply(s, a).state, b).state, c).state, d).state
  {
    hide Apply;
    assert [a, b, c, d][..3] == [a, b, c] && [a, b, c][..2] == [a, b] && [a, b][..1] == [a] && [a][..0] == [];
    assert Run(s, [a]) == Apply(Run(s, []), a).state;
    assert Run(s, [a, b]) == Apply(Run(s, [a]), b).state;
    assert Run(s, [a, b, c]) == Apply(Run(s, [a, b]), c).state;
  }

  lemma StrandedOne(s: State)
    requires s.tasks.Keys == {0} && Unstarted(s.tasks[0], 0, 7) && Retained(s.tasks[0].reservations) == 1
    ensures StrandedBelow(s, 0, 7, 4) == 1
  {
    hide Retained;
    assert StrandedBelow(s, 0, 7, 1) == StrandedBelow(s, 0, 7, 0) + 1;
    assert StrandedBelow(s, 0, 7, 2) == StrandedBelow(s, 0, 7, 1);
    assert StrandedBelow(s, 0, 7, 3) == StrandedBelow(s, 0, 7, 2);
  }

  /** The leak is real: one input byte, committed and revoked before it runs,
      stays on the account with nothing left to give it back. */
  lemma LeakHappens()
    ensures exists s :: Reachable(s) && Gap(s, 0) == 1
  {
    hide Inv, Gap, Apply, Retained, Uploaded, Evolves, StrandedBelow;
    var a1, a2, a3, a4 := ACreate(0, 7, 0, true, true), AUpload(0, 0, ONE_FILE), ACommit(0, 0), ARevokeProvider(0, 7);
    var s2, s3, s4 := LeakStates(a1, a2, a3, a4);
    InitOk(1, 100);
    StepOk(Init(1, 100), a1);
    StepOk(Apply(Init(1, 100), a1).state, a2);
    StepOk(s2, a3);
    CommittedFacts();
    GapOfOwner(s3, 0);
    RevokeLeaks(s3, 0, 7, 0);
    StrandedOne(s3);
    assert RevokeProvider(s3, 0, 7) == Apply(s3, a4) by { RevokeIsAction(s3); }
  }

  lemma RevokeIsAction(s: State)
    ensures RevokeProvider(s, 0, 7) == Apply(s, ARevokeProvider(0, 7))
  {
  }

  lemma LeakStates(a1: Action, a2: Action, a3: Action, a4: Action) returns (s2: State, s3: State, s4: State)
    requires a1 == ACreate(0, 7, 0, true, true) && a2 == AUpload(0, 0, ONE_FILE)
    ensures s2 == Uploaded() == Apply(Apply(Init(1, 100), a1).state, a2).state
    ensures s3 == Apply(s2, a3).state && s4 == Apply(s3, a4).state
    ensures Reachable(s4)
  {
    hide Apply, Run;
    s2 := Apply(Apply(Init(1, 100), a1).state, a2).state;
    s3 := Apply(s2, a3).state;
    s4 := Apply(s3, a4).state;
    RunFour(Init(1, 100), a1, a2, a3, a4);
    assert s4 == Run(Init(1, 100), [a1, a2, a3, a4]);
  }
}
