/** Every transaction keeps the invariant, whatever its arguments. */
module Steps {
  import opened TaskTypes
  import opened Holdings
  import opened EventLog
  import opened Rounds
  import opened Protocol
  import opened Invariant
  import opened Conservation

  /** What the invariant says of one task. */
  lemma Known(s: State, t: TaskId)
    requires Inv(s) && t in s.tasks
    ensures CellOk(s.tasks[t], s.next)
    ensures t < s.next && s.tasks[t].owner in s.usage && s.tasks[t].owner in s.quota
    ensures s.storage <= s.maxStorage
  {
  }

  predicate IntentOk(status: Status, pending: Option<Terminal>) {
    pending.Some? ==> status == if pending.value == ToDeleted then Deleted else Running
  }

  /** Moving the open round, with the status that goes with it. */
  lemma SetLastOk(rs: seq<Round>, r: Round, status: Status, pending: Option<Terminal>,
                  status': Status, pending': Option<Terminal>, bound: nat, bound': nat)
    requires RoundsOk(rs, status, pending, bound) && bound <= bound'
    requires HasOpen(rs) && RoundMove(rs[|rs| - 1], r) && r.attempt <= ATTEMPT_LIMIT
    requires status' != Uploading && IntentOk(status', pending')
    requires if OpenState(r.state) then OpenOk(r, status', pending')
             else status' != Queued && (status' == Running ==> pending'.Some?)
    ensures RoundsOk(rs[|rs| - 1 := r], status', pending', bound')
    ensures RoundsMove(rs, rs[|rs| - 1 := r], bound)
    ensures OpenState(r.state) <==> HasOpen(rs[|rs| - 1 := r])
  {
  }

  /** Leaving the rounds alone, with a status that still goes with them. */
  lemma SameRoundsOk(rs: seq<Round>, status: Status, pending: Option<Terminal>,
                     status': Status, pending': Option<Terminal>, bound: nat, bound': nat)
    requires RoundsOk(rs, status, pending, bound) && bound <= bound'
    requires !HasOpen(rs) && status' !in {Uploading, Queued} && IntentOk(status', pending')
    requires status' == Running ==> pending'.Some?
    ensures RoundsOk(rs, status', pending', bound')
    ensures RoundsMove(rs, rs, bound)
  {
  }

  lemma AddRoundOk(rs: seq<Round>, r: Round, status: Status, bound: nat, bound': nat)
    requires RoundsOk(rs, status, None, bound) && !HasOpen(rs)
    requires r.state == RPending && r.leaseOwner == None && r.epoch == 0 && r.attempt == 0
    requires bound <= r.id < bound' && r.source < bound' && (rs == [] || bound <= r.source)
    ensures RoundsOk(rs + [r], Queued, None, bound')
    ensures RoundsMove(rs, rs + [r], bound)
  {
    var rs' := rs + [r];
    assert rs'[|rs|] == r;
    assert forall i | 0 <= i < |rs| :: rs'[i] == rs[i];
  }

  lemma SayOk(c: Cell, body: EventBody)
    requires LogOk(c.log, Face(c.status, c.reason))
    requires !body.StatusChanged?
    ensures LogOk(Say(c, body).log, Face(c.status, c.reason))
    ensures Extends(c.log, Say(c, body).log)
  {
    EmitOk(c.log, Face(c.status, c.reason), body);
  }

  lemma TurnOk(c: Cell, status: Status, reason: Option<Reason>)
    requires LogOk(c.log, Face(c.status, c.reason))
    requires Unfinished(status) ==> Unfinished(c.status)
    requires status != Deleted
    ensures LogOk(Turn(c, status, reason).log, Face(status, reason))
    ensures Extends(c.log, Turn(c, status, reason).log)
  {
    EmitOk(c.log, Face(c.status, c.reason), StatusChanged(status, reason));
  }

  lemma MoveOk(c: Cell, status: Status)
    requires LogOk(c.log, Face(c.status, c.reason))
    requires Unfinished(status) ==> Unfinished(c.status)
    requires status != Deleted ==> c.reason == None
    ensures LogOk(Move(c, status).log, Face(status, c.reason))
    ensures Extends(c.log, Move(c, status).log)
  {
    EmitOk(c.log, Face(c.status, c.reason), StatusChanged(status, None));
  }

  predicate SameRow(c: Cell, c': Cell) {
    && c'.owner == c.owner && c'.provider == c.provider
    && c'.committed == c.committed && c'.initial == c.initial
    && c'.reservations == c.reservations && c'.files == c.files
  }

  predicate Returning(s: Status) {
    s in {Queued, Running, Ready}
  }

  /** The shape of every edit that ends a round or a task: the row, the open
      round and the log change; the reservations are left to the release. */
  predicate TierEdit(c: Cell, c': Cell, bound: nat, bound': nat) {
    && bound <= bound'
    && SameRow(c, c')
    && Edge(c.status, c'.status) && c'.status != Uploading
    && (Unfinished(c'.status) ==> Returning(c.status) && c'.reason == None)
    && RoundsOk(c'.rounds, c'.status, c'.pending, bound') && RoundsMove(c.rounds, c'.rounds, bound)
    && !Occupies(c'.rounds, c'.status)
    && (HasOpen(c'.rounds) ==> HasOpen(c.rounds))
    && (!HasOpen(c.rounds) && c.status !in {Uploading, Queued, Ready} ==> c'.status !in {Queued, Ready})
    && LogOk(c'.log, Face(c'.status, c'.reason)) && Extends(c.log, c'.log)
  }

  lemma TierCellOk(c: Cell, c': Cell, bound: nat, bound': nat)
    requires CellOk(c, bound) && TierEdit(c, c', bound, bound')
    ensures var c2 := c'.(reservations := Release(c.reservations, OfKinds(Tier(c'.status))));
            CellOk(c2, bound') && CellStep(c, c2, bound)
  {
    hide LogOk, RoundsMove;
    TierHolds(c', c.status, Occupies(c.rounds, c.status), bound);
    TierBacked(c', c.status);
    CellOkLater(c, bound, bound');
    CellStill(c, bound);
    hide Backed, Tier;
  }

  /** Such an edit followed by the release of its tier keeps the invariant. */
  lemma TierStepOk(s: State, t: TaskId, c: Cell, next: nat)
    requires Inv(s) && t in s.tasks
    requires TierEdit(s.tasks[t], c, s.next, next)
    ensures Good(s, TierStep(s, t, c, next))
  {
    Known(s, t);
    TierCellOk(s.tasks[t], c, s.next, next);
    assert c.reservations == s.tasks[t].reservations && s.next <= next;
    hide Inv, CellOk, CellStep, TierEdit, Tier;
    GiveAfterEdit(t, BooksOf(s, t), c, Tier(c.status));
    hide Balanced;
    PutOk(s, t, GiveTier(t, BooksOf(s, t).(cell := c)), next);
  }

  lemma StepKeepsOwner(c: Cell, c': Cell, bound: nat)
    requires CellStep(c, c', bound)
    ensures c'.owner == c.owner
  {
  }

  /** An edit that moves no counter keeps the invariant. */
  lemma QuietStepOk(s: State, t: TaskId, c: Cell, next: nat)
    requires Inv(s) && t in s.tasks && s.next <= next
    requires CellOk(c, next) && CellStep(s.tasks[t], c, s.next)
    requires c.reservations == s.tasks[t].reservations
    ensures Inv(QuietStep(s, t, c, next))
    ensures Evolves(s, QuietStep(s, t, c, next))
  {
    hide Inv, CellOk, Held, HeldBytes;
    Known(s, t);
    StepKeepsOwner(s.tasks[t], c, s.next);
    hide CellStep;
    var b := BooksOf(s, t).(cell := c);
    assert s.usage[c.owner := b.usage] == s.usage;
    assert Put(s, t, b).(next := next) == QuietStep(s, t, c, next);
    PutOk(s, t, b, next);
  }

  ghost predicate Good(s: State, r: Result) {
    && Inv(r.state)
    && Evolves(s, r.state)
    && (r.outcome !in {Done, Requested} ==> r.state == s)
  }

  lemma StandsStill(s: State, r: Result)
    requires Inv(s) && r.state == s
    ensures Good(s, r)
  {
    hide Inv, CellStep;
    forall t | t in s.tasks ensures CellStep(s.tasks[t], s.tasks[t], s.next) {
      CellStill(s.tasks[t], s.next);
    }
  }
}
