/** task_rounds rows and the conditional updates that arbitrate them. */
module Rounds {
  import opened TaskTypes

  /** The WHERE clauses used on task_rounds. */
  datatype Guard =
    | ByState(id: RoundId, state: RoundState)
    | ByLease(id: RoundId, owner: Option<Instance>, epoch: nat)
    | ByEpoch(id: RoundId, epoch: nat)
    | Unleased(id: RoundId)
    | InTask(states: set<RoundState>)

  /** A NULL lease owner compares equal to nothing. */
  predicate Matches(g: Guard, r: Round) {
    match g
    case ByState(id, state) => r.id == id && r.state == state
    case ByLease(id, owner, epoch) =>
      r.id == id && r.state == RRunning && owner.Some? && r.leaseOwner == owner && r.epoch == epoch
    case ByEpoch(id, epoch) => r.id == id && r.state == RRunning && r.epoch == epoch
    case Unleased(id) => r.id == id && r.leaseOwner == None
    case InTask(states) => r.state in states
  }

  const ACTIVE_ROUND_STATES: set<RoundState> := {RPending, RRunning, RCancelling}

  /** The SET clauses used on task_rounds. */
  datatype Change = Touch | To(state: RoundState) | EndAs(state: RoundState) | Unlease | LeaseTo(iid: Instance)

  function Amend(ch: Change, r: Round): Round {
    match ch
    case Touch => r
    case To(state) => r.(state := state)
    case EndAs(state) => r.(state := state, leaseOwner := None)
    case Unlease => r.(leaseOwner := None)
    case LeaseTo(iid) => r.(state := RRunning, leaseOwner := Some(iid), epoch := r.epoch + 1, attempt := r.attempt + 1)
  }

  /** UPDATE task_rounds SET ch WHERE g */
  function UpdateWhere(rs: seq<Round>, g: Guard, ch: Change): seq<Round> {
    seq(|rs|, i requires 0 <= i < |rs| => if Matches(g, rs[i]) then Amend(ch, rs[i]) else rs[i])
  }

  /** ... RETURNING: the rows it matched, as changed; their number is the rowcount. */
  function Updated(rs: seq<Round>, g: Guard, ch: Change): seq<Round> {
    if rs == [] then [] else
      Updated(rs[..|rs| - 1], g, ch) + (if Matches(g, rs[|rs| - 1]) then [Amend(ch, rs[|rs| - 1])] else [])
  }

  lemma {:induction false} UpdatedNone(rs: seq<Round>, g: Guard, ch: Change)
    requires forall i | 0 <= i < |rs| :: !Matches(g, rs[i])
    ensures Updated(rs, g, ch) == []
  {
    if rs == [] {
    } else {
      UpdatedNone(rs[..|rs| - 1], g, ch);
    }
  }

  predicate OnlyLastOpen(rs: seq<Round>) {
    forall i | 0 <= i < |rs| - 1 :: !OpenState(rs[i].state)
  }

  predicate HasOpen(rs: seq<Round>) {
    |rs| > 0 && OpenState(rs[|rs| - 1].state)
  }

  predicate LastIs(rs: seq<Round>, id: RoundId, state: RoundState) {
    |rs| > 0 && rs[|rs| - 1].id == id && rs[|rs| - 1].state == state
  }

  predicate LastUnder(rs: seq<Round>, id: RoundId, owner: Option<Instance>, epoch: nat) {
    |rs| > 0 && Matches(ByLease(id, owner, epoch), rs[|rs| - 1])
  }

  predicate LastAtEpoch(rs: seq<Round>, id: RoundId, epoch: nat) {
    |rs| > 0 && Matches(ByEpoch(id, epoch), rs[|rs| - 1])
  }

  predicate IdsDistinct(rs: seq<Round>) {
    forall i, j | 0 <= i < j < |rs| :: rs[i].id != rs[j].id
  }

  /** Guards under which only a task's newest round can match. */
  predicate Narrow(g: Guard, rs: seq<Round>) {
    match g
    case ByState(_, state) => OpenState(state)
    case ByLease(_, _, _) => true
    case ByEpoch(_, _) => true
    case Unleased(id) => |rs| > 0 && rs[|rs| - 1].id == id
    case InTask(states) => forall st | st in states :: OpenState(st)
  }

  /** While only the newest round may be open, a conditional update changes that
      one round or nothing. */
  lemma OnlyNewest(rs: seq<Round>, g: Guard, ch: Change)
    requires OnlyLastOpen(rs) && IdsDistinct(rs) && Narrow(g, rs)
    ensures
      if |rs| > 0 && Matches(g, rs[|rs| - 1]) then
        && Updated(rs, g, ch) == [Amend(ch, rs[|rs| - 1])]
        && UpdateWhere(rs, g, ch) == rs[|rs| - 1 := Amend(ch, rs[|rs| - 1])]
      else
        && Updated(rs, g, ch) == []
        && UpdateWhere(rs, g, ch) == rs
  {
    if |rs| > 0 {
      UpdatedNone(rs[..|rs| - 1], g, ch);
    }
  }

  function ValidRoundMoves(s: RoundState): set<RoundState> {
    match s
    case RPending => {RPending, RRunning, RCancelled}
    case RRunning => {RRunning, RPending, RCancelling, RSettled, RFailed, RCancelled}
    case RCancelling => {RCancelling, RCancelled}
    case RSettled => {RSettled}
    case RFailed => {RFailed}
    case RCancelled => {RCancelled}
  }

  /** What may become of one round row. Only a claim moves the counters, and it
      moves both. */
  predicate RoundMove(r: Round, r': Round) {
    && r'.id == r.id
    && r'.source == r.source
    && r'.state in ValidRoundMoves(r.state)
    && var claim := if r.state == RPending && r'.state == RRunning then 1 else 0;
       r'.epoch == r.epoch + claim && r'.attempt == r.attempt + claim
  }

  /** What may become of a task's rounds: cleared, or moved in place with at
      most one fresh pending round added. */
  predicate RoundsMove(rs: seq<Round>, rs': seq<Round>, bound: nat) {
    || rs' == []
    || (&& |rs| <= |rs'| <= |rs| + 1
        && (forall i | 0 <= i < |rs| :: RoundMove(rs[i], rs'[i]))
        && (|rs'| == |rs| + 1 ==>
              var r := rs'[|rs|];
              bound <= r.id && r.state == RPending && r.epoch == 0 && r.attempt == 0))
  }

  const ATTEMPT_LIMIT: nat := 3

  /** What every task's rounds satisfy, given the row's status and intent. */
  predicate RoundsOk(rs: seq<Round>, status: Status, pending: Option<Terminal>, bound: nat) {
    && OnlyLastOpen(rs)
    && (forall i, j | 0 <= i < j < |rs| :: rs[i].id != rs[j].id && rs[i].source != rs[j].source)
    && (forall i | 0 <= i < |rs| :: rs[i].id < bound && rs[i].source < bound
                                    && rs[i].epoch == rs[i].attempt <= ATTEMPT_LIMIT)
    && (status == Uploading ==> rs == [])
    && (if HasOpen(rs) then OpenOk(rs[|rs| - 1], status, pending)
        else status != Queued && (status == Running ==> pending.Some?))
    && (pending.Some? ==> status == if pending.value == ToDeleted then Deleted else Running)
  }

  predicate OpenOk(r: Round, status: Status, pending: Option<Terminal>) {
    match r.state
    case RPending => status == Queued && r.leaseOwner == None && r.attempt < ATTEMPT_LIMIT
    case RRunning => status == Running && pending == None && r.leaseOwner.Some?
    case RCancelling => (status == Running && pending.Some?) || status == Deleted
    case _ => false
  }
}
