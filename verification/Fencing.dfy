/** Lease epochs: a write tagged (task, round, epoch) commits only while that
    round runs under exactly that epoch, and a tag that stopped running never
    writes again. Nothing here depends on the lease's clock. */
module Fencing {
  import opened TaskTypes
  import opened Rounds
  import opened Protocol
  import opened Invariant
  import opened Steps
  import opened Runs

  datatype Tag = Tag(task: TaskId, round: RoundId, epoch: nat)

  /** The round runs under the tag's epoch. */
  predicate Live(s: State, g: Tag) {
    g.task in s.tasks && LastAtEpoch(s.tasks[g.task].rounds, g.round, g.epoch)
  }

  predicate Past(r: Round, g: Tag) {
    r.id == g.round ==> r.epoch > g.epoch || (r.epoch == g.epoch && r.state != RRunning)
  }

  /** The tag was issued once and its round has left that epoch, or is gone. */
  predicate Dead(s: State, g: Tag) {
    && g.task < s.next && g.round < s.next
    && (g.task in s.tasks ==> forall i | 0 <= i < |s.tasks[g.task].rounds| :: Past(s.tasks[g.task].rounds[i], g))
  }

  /** The executor's and the callbacks' writes, each carrying its tag. */
  predicate Tagged(a: Action, g: Tag) {
    match a
    case APersistFact(t, r, _, e, _) => Tag(t, r, e) == g
    case ASettle(t, r, _, e, _, _) => Tag(t, r, e) == g
    case AFailDeadline(t, r, _, e) => Tag(t, r, e) == g
    case ARegisterOutput(_, t, r, e, _, _) => Tag(t, r, e) == g
    case _ => false
  }

  /** A tagged write that does anything found its round running at its epoch. */
  lemma OnlyLiveWrites(s: State, a: Action, g: Tag)
    requires Tagged(a, g) && Apply(s, a).state != s
    ensures Live(s, g)
  {
    match a
    case APersistFact(t, r, i, e, au) => {}
    case ASettle(t, r, i, e, tail, rev) => {}
    case AFailDeadline(t, r, i, e) => {}
    case ARegisterOutput(o, t, r, e, n, sz) => {}
    case _ => {}
  }

  lemma DeadIsNotLive(s: State, g: Tag)
    requires Dead(s, g)
    ensures !Live(s, g)
  {
  }

  lemma {:induction false} PastMoves(rs: seq<Round>, rs': seq<Round>, g: Tag, bound: nat)
    requires RoundsMove(rs, rs', bound) && g.round < bound
    requires forall i | 0 <= i < |rs| :: Past(rs[i], g)
    ensures forall i | 0 <= i < |rs'| :: Past(rs'[i], g)
  {
    forall i | 0 <= i < |rs'| ensures Past(rs'[i], g) {
      if i < |rs| { assert RoundMove(rs[i], rs'[i]); }
    }
  }

  /** Dead tags stay dead, whatever happens next. */
  lemma DeadStays(s: State, a: Action, g: Tag)
    requires Inv(s) && Dead(s, g)
    ensures Dead(Apply(s, a).state, g)
  {
    hide Inv, Apply, RoundsMove, Past;
    StepOk(s, a);
    var s' := Apply(s, a).state;
    if g.task in s'.tasks && g.task in s.tasks {
      assert CellStep(s.tasks[g.task], s'.tasks[g.task], s.next);
      PastMoves(s.tasks[g.task].rounds, s'.tasks[g.task].rounds, g, s.next);
    }
  }

  lemma {:induction false} DeadForever(s: State, actions: seq<Action>, g: Tag)
    requires Inv(s) && Dead(s, g)
    ensures Dead(Run(s, actions), g)
  {
    if actions == [] {
    } else {
      var front := actions[..|actions| - 1];
      DeadForever(s, front, g);
      RunOk(s, front);
      DeadStays(Run(s, front), actions[|actions| - 1], g);
    }
  }

  /** A live tag either stays live or is dead: there is no way back. */
  lemma LiveOrDead(s: State, a: Action, g: Tag)
    requires Inv(s) && Live(s, g)
    ensures Live(Apply(s, a).state, g) || Dead(Apply(s, a).state, g)
  {
    hide Inv, Apply, RoundsMove, RoundsOk, HoldsOk, Backed, InputsFrozen;
    StepOk(s, a);
    var s' := Apply(s, a).state;
    Known(s, g.task);
    LiveIssued(s.tasks[g.task], g, s.next);
    if g.task in s'.tasks {
      Known(s', g.task);
      assert CellStep(s.tasks[g.task], s'.tasks[g.task], s.next);
      LiveMoves(s.tasks[g.task], s'.tasks[g.task], g, s.next, s'.next);
    }
  }

  lemma LiveIssued(c: Cell, g: Tag, bound: nat)
    requires RoundsOk(c.rounds, c.status, c.pending, bound) && LastAtEpoch(c.rounds, g.round, g.epoch)
    ensures g.round < bound
  {
  }

  lemma LiveMoves(c: Cell, c': Cell, g: Tag, bound: nat, bound': nat)
    requires RoundsOk(c.rounds, c.status, c.pending, bound)
    requires RoundsOk(c'.rounds, c'.status, c'.pending, bound')
    requires RoundsMove(c.rounds, c'.rounds, bound)
    requires LastAtEpoch(c.rounds, g.round, g.epoch)
    ensures g.round < bound
    ensures LastAtEpoch(c'.rounds, g.round, g.epoch) || forall i | 0 <= i < |c'.rounds| :: Past(c'.rounds[i], g)
  {
    var n := |c.rounds| - 1;
    if !LastAtEpoch(c'.rounds, g.round, g.epoch) && c'.rounds != [] {
      forall i | 0 <= i < |c'.rounds| ensures Past(c'.rounds[i], g) {
        if i <= n { assert RoundMove(c.rounds[i], c'.rounds[i]); }
      }
    }
  }

  /** The steps that take a running round away from its executor. */
  predicate Evicts(a: Action, t: TaskId) {
    match a
    case AReclaim(x, _, _, _) => x == t
    case AAbort(_, x) => x == t
    case AComplete(_, x) => x == t
    case ADelete(_, x) => x == t
    case AKill(x) => x == t
    case ASuspend(x) => x == t
    case ASettle(x, _, _, _, _, _) => x == t
    case AFailDeadline(x, _, _, _) => x == t
    case _ => false
  }

  lemma LiveRuns(s: State, g: Tag)
    requires Inv(s) && Live(s, g)
    ensures s.tasks[g.task].status == Running && HasOpen(s.tasks[g.task].rounds)
  {
    hide LedgerOk, SlotsOk, ListsOk, HoldsOk, Backed;
    Known(s, g.task);
  }

  lemma UserEvicts(s: State, a: Action, g: Tag)
    requires a.AAbort? || a.AComplete? || a.ADelete?
    requires Live(s, g) && Evicts(a, g.task) && Apply(s, a).outcome in {Done, Requested}
    requires s.tasks[g.task].status == Running && HasOpen(s.tasks[g.task].rounds)
    ensures !Live(Apply(s, a).state, g)
  {
    hide FreeSlots, HeldIf;
  }

  lemma InterruptEvicts(s: State, a: Action, g: Tag)
    requires a.AReclaim? || a.AKill? || a.ASuspend?
    requires Live(s, g) && Evicts(a, g.task) && Apply(s, a).outcome in {Done, Requested}
    requires s.tasks[g.task].status == Running && HasOpen(s.tasks[g.task].rounds)
    ensures !Live(Apply(s, a).state, g)
  {
    hide FreeSlots, HeldIf;
  }

  lemma SettleEvicts(s: State, a: Action, g: Tag)
    requires a.ASettle? && Live(s, g) && Evicts(a, g.task) && Apply(s, a).outcome == Done
    ensures !Live(Apply(s, a).state, g)
  {
    hide FreeSlots, HeldIf;
  }

  lemma DeadlineEvicts(s: State, a: Action, g: Tag)
    requires a.AFailDeadline? && Live(s, g) && Evicts(a, g.task) && Apply(s, a).outcome == Done
    ensures !Live(Apply(s, a).state, g)
  {
    hide FreeSlots, HeldIf;
  }

  lemma FencedIsDone(s: State, a: Action)
    requires (a.ASettle? || a.AFailDeadline?) && Apply(s, a).outcome in {Done, Requested}
    ensures Apply(s, a).outcome == Done
  {
    hide Settled, RoundLostCell;
  }

  lemma EvictionEndsLife(s: State, a: Action, g: Tag)
    requires Live(s, g) && Evicts(a, g.task) && Apply(s, a).outcome in {Done, Requested}
    requires s.tasks[g.task].status == Running && HasOpen(s.tasks[g.task].rounds)
    ensures !Live(Apply(s, a).state, g)
  {
    hide Apply, Live;
    if a.AAbort? || a.AComplete? || a.ADelete? {
      UserEvicts(s, a, g);
    } else if a.AReclaim? || a.AKill? || a.ASuspend? {
      InterruptEvicts(s, a, g);
    } else {
      FencedIsDone(s, a);
      if a.ASettle? { SettleEvicts(s, a, g); } else { DeadlineEvicts(s, a, g); }
    }
  }

  /** Whatever step took a live tag's round out of its epoch: no write that
      still carries the tag changes the database, however the run goes on. */
  lemma NeverAgain(s: State, a: Action, g: Tag, later: seq<Action>, w: Action)
    requires Reachable(s) && Live(s, g) && !Live(Apply(s, a).state, g) && Tagged(w, g)
    ensures var s' := Run(Apply(s, a).state, later); Apply(s', w).state == s'
  {
    hide Inv, Apply, Live, Dead;
    ReachableOk(s);
    var s1 := Apply(s, a).state;
    StepOk(s, a);
    LiveOrDead(s, a, g);
    DeadForever(s1, later, g);
    DeadIsNotLive(Run(s1, later), g);
    if Apply(Run(s1, later), w).state != Run(s1, later) {
      OnlyLiveWrites(Run(s1, later), w, g);
    }
  }

  /** Epoch fencing over whole runs: a committed reclaim, abort, complete,
      delete, kill, suspension, settle or deadline is such a step, whether or
      not the lease had been renewed. */
  lemma FencedOut(s: State, a: Action, g: Tag, later: seq<Action>, w: Action)
    requires Reachable(s) && Live(s, g)
    requires Evicts(a, g.task) && Apply(s, a).outcome in {Done, Requested}
    requires Tagged(w, g)
    ensures var s' := Run(Apply(s, a).state, later); Apply(s', w).state == s'
  {
    hide Inv, Apply, Live, Run;
    ReachableOk(s);
    LiveRuns(s, g);
    EvictionEndsLife(s, a, g);
    NeverAgain(s, a, g, later, w);
  }

  lemma ClaimRounds(s: State, t: TaskId, rid: RoundId, iid: Instance)
    requires Claim(s, t, rid, iid).outcome == Done
    ensures t in s.tasks && LastIs(s.tasks[t].rounds, rid, RPending)
    ensures var c, s' := s.tasks[t], Claim(s, t, rid, iid).state;
            && s'.next == s.next && t in s'.tasks
            && s'.tasks[t].rounds == c.rounds[|c.rounds| - 1 :=
                 Last(c).(state := RRunning, leaseOwner := Some(iid), epoch := Last(c).epoch + 1,
                     attempt := Last(c).attempt + 1)]
  {
  }

  lemma RoundsKnown(s: State, t: TaskId)
    requires Inv(s) && t in s.tasks
    ensures t < s.next && RoundsOk(s.tasks[t].rounds, s.tasks[t].status, s.tasks[t].pending, s.next)
  {
    hide LedgerOk, SlotsOk, ListsOk, RoundsOk, HoldsOk, Backed;
  }

  /** The round runs under this epoch and under no earlier one ever again. */
  predicate Opened(s: State, t: TaskId, rid: RoundId, epoch: nat) {
    && Live(s, Tag(t, rid, epoch))
    && forall n | 0 <= n < epoch :: Dead(s, Tag(t, rid, n))
  }

  /** A claim makes a new tag live and leaves every earlier tag of the round dead. */
  lemma ClaimOpensEpoch(s: State, t: TaskId, rid: RoundId, iid: Instance)
    requires Reachable(s) && Claim(s, t, rid, iid).outcome == Done
    ensures t in s.tasks && LastIs(s.tasks[t].rounds, rid, RPending)
    ensures Opened(Claim(s, t, rid, iid).state, t, rid, Last(s.tasks[t]).epoch + 1)
  {
    hide Inv, Claim;
    ReachableOk(s);
    ClaimRounds(s, t, rid, iid);
    RoundsKnown(s, t);
  }

  /** The round, wherever it still exists, is at the tag's epoch or beyond. */
  predicate Passed(s: State, g: Tag) {
    && g.task < s.next && g.round < s.next
    && (g.task in s.tasks ==> forall i | 0 <= i < |s.tasks[g.task].rounds| ::
          s.tasks[g.task].rounds[i].id == g.round ==> g.epoch <= s.tasks[g.task].rounds[i].epoch)
  }

  lemma PassedMoves(rs: seq<Round>, rs': seq<Round>, g: Tag, bound: nat)
    requires RoundsMove(rs, rs', bound) && g.round < bound
    requires forall i | 0 <= i < |rs| :: rs[i].id == g.round ==> g.epoch <= rs[i].epoch
    ensures forall i | 0 <= i < |rs'| :: rs'[i].id == g.round ==> g.epoch <= rs'[i].epoch
  {
    forall i | 0 <= i < |rs'| ensures rs'[i].id == g.round ==> g.epoch <= rs'[i].epoch {
      if i < |rs| { assert RoundMove(rs[i], rs'[i]); }
    }
  }

  lemma PassedStays(s: State, a: Action, g: Tag)
    requires Inv(s) && Passed(s, g)
    ensures Passed(Apply(s, a).state, g)
  {
    hide Inv, Apply, RoundsMove;
    StepOk(s, a);
    var s' := Apply(s, a).state;
    if g.task in s'.tasks && g.task in s.tasks {
      assert CellStep(s.tasks[g.task], s'.tasks[g.task], s.next);
      PassedMoves(s.tasks[g.task].rounds, s'.tasks[g.task].rounds, g, s.next);
    }
  }

  lemma {:induction false} PassedForever(s: State, actions: seq<Action>, g: Tag)
    requires Inv(s) && Passed(s, g)
    ensures Passed(Run(s, actions), g)
  {
    hide Inv, Apply, Passed;
    if actions == [] {
    } else {
      var front := actions[..|actions| - 1];
      PassedForever(s, front, g);
      RunOk(s, front);
      PassedStays(Run(s, front), actions[|actions| - 1], g);
    }
  }

  lemma ClaimAdvances(s: State, t: TaskId, rid: RoundId, iid: Instance)
    requires Inv(s) && Claim(s, t, rid, iid).outcome == Done
    ensures t in s.tasks && LastIs(s.tasks[t].rounds, rid, RPending)
    ensures var s' := Claim(s, t, rid, iid).state;
            && t in s'.tasks && |s'.tasks[t].rounds| == |s.tasks[t].rounds|
            && Last(s'.tasks[t]).epoch == Last(s.tasks[t]).epoch + 1
            && Passed(s', Tag(t, rid, Last(s'.tasks[t]).epoch))
  {
    hide Inv, Claim;
    ClaimRounds(s, t, rid, iid);
    RoundsKnown(s, t);
  }

  /** Two claims of one round, anywhere in a run: the later one has the
      strictly larger epoch. */
  lemma EpochsIncrease(s: State, t: TaskId, rid: RoundId, iid: Instance, between: seq<Action>, iid': Instance)
    requires Reachable(s) && Claim(s, t, rid, iid).outcome == Done
    requires var s1 := Run(Claim(s, t, rid, iid).state, between); Claim(s1, t, rid, iid').outcome == Done
    ensures var first, s1 := Claim(s, t, rid, iid).state, Run(Claim(s, t, rid, iid).state, between);
            var second := Claim(s1, t, rid, iid').state;
            && t in first.tasks && |first.tasks[t].rounds| > 0
            && t in second.tasks && |second.tasks[t].rounds| > 0
            && Last(first.tasks[t]).epoch < Last(second.tasks[t]).epoch
  {
    hide Inv, Claim, Run, Evolves;
    ReachableOk(s);
    var first := Claim(s, t, rid, iid).state;
    var s1 := Run(first, between);
    assert Inv(first) by { ClaimKeeps(s, t, rid, iid); }
    RunOk(first, between);
    ClaimAdvances(s, t, rid, iid);
    PassedForever(first, between, Tag(t, rid, Last(first.tasks[t]).epoch));
    ClaimAdvances(s1, t, rid, iid');
  }

  lemma ClaimKeeps(s: State, t: TaskId, rid: RoundId, iid: Instance)
    requires Inv(s)
    ensures Inv(Claim(s, t, rid, iid).state)
  {
    hide Inv, Claim, Evolves;
    StepOk(s, AClaim(t, rid, iid));
  }
}
