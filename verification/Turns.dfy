/** Turns: every message of the user's opens exactly one round, in order, and
    every round answers the message it was opened for. */
module Turns {
  import opened TaskTypes
  import opened Rounds
  import opened Protocol
  import opened Invariant
  import opened Steps
  import opened Runs
  import opened History
  import opened Intent
  import opened EndedTasks
  import opened Effects

  /** The user's messages, oldest first. */
  function Prompts(messages: seq<Message>): seq<MessageId> {
    if messages == [] then [] else
      var m := messages[|messages| - 1];
      Prompts(messages[..|messages| - 1]) + if m.author == ByUser then [m.id] else []
  }

  /** What the rounds answer, oldest first. */
  function Sources(rounds: seq<Round>): seq<MessageId> {
    seq(|rounds|, i requires 0 <= i < |rounds| => rounds[i].source)
  }

  /** Once the input is committed the rounds answer the user's messages one by
      one; before that there is the initial message and no round. The retention
      sweep takes both sides away. */
  predicate InTurn(c: Cell) {
    if c.committed then Sources(c.rounds) == Prompts(c.log.messages)
    else c.rounds == [] && Prompts(c.log.messages) == if c.initial.Some? then [c.initial.value] else []
  }

  ghost predicate AllInTurn(s: State) {
    forall t | t in s.tasks :: InTurn(s.tasks[t])
  }

  lemma {:induction false} PromptsAppend(a: seq<Message>, b: seq<Message>)
    ensures Prompts(a + b) == Prompts(a) + Prompts(b)
  {
    if b == [] {
      assert a + b == a;
    } else {
      PromptsAppend(a, b[..|b| - 1]);
      assert (a + b)[..|a + b| - 1] == a + b[..|b| - 1];
    }
  }

  lemma OnePrompt(m: Message)
    ensures Prompts([m]) == if m.author == ByUser then [m.id] else []
  {
    assert [m][..0] == [];
  }

  /** Rounds change in place, and the user says nothing. */
  lemma Listening(c: Cell, c': Cell, bodies: seq<EventBody>, messages: seq<Message>)
    requires InTurn(c) && c'.committed == c.committed && c'.initial == c.initial
    requires |c'.rounds| == |c.rounds| && forall i | 0 <= i < |c.rounds| :: c'.rounds[i].source == c.rounds[i].source
    requires Says(c.log, c'.log, bodies, messages) && Prompts(messages) == []
    ensures InTurn(c')
  {
    PromptsAppend(c.log.messages, messages);
    assert Sources(c'.rounds) == Sources(c.rounds);
  }

  /** A new round answers the message it was opened for. */
  lemma Answering(c: Cell, c': Cell, r: Round, bodies: seq<EventBody>, messages: seq<Message>)
    requires InTurn(c) && c'.committed && c'.rounds == c.rounds + [r]
    requires Says(c.log, c'.log, bodies, messages)
    requires if c.committed then Prompts(messages) == [r.source]
             else messages == [] && c.initial == Some(r.source)
    ensures InTurn(c')
  {
    PromptsAppend(c.log.messages, messages);
    assert Sources(c'.rounds) == Sources(c.rounds) + [r.source];
  }

  predicate Staying(c: Cell, c': Cell) {
    && c'.committed == c.committed && c'.initial == c.initial && c'.log == c.log && |c'.rounds| == |c.rounds|
    && forall i | 0 <= i < |c.rounds| :: c'.rounds[i].source == c.rounds[i].source
  }

  lemma StayingInTurn(c: Cell, c': Cell)
    requires InTurn(c) && Staying(c, c')
    ensures InTurn(c')
  {
    assert Sources(c'.rounds) == Sources(c.rounds);
  }

  lemma NoPrompts()
    ensures Prompts([]) == []
  {
  }

  lemma EndingTurn(s: State, owner: UserId, t: TaskId, abort: bool)
    requires Own(s, owner, t) && s.tasks[t].status in {Queued, Ready} && InTurn(s.tasks[t])
    requires s.tasks[t].status == Ready ==> !HasOpen(s.tasks[t].rounds)
    ensures var r := Apply(s, if abort then AAbort(owner, t) else AComplete(owner, t));
            t in r.state.tasks && InTurn(r.state.tasks[t])
  {
    hide InTurn, Apply, Says;
    NoPrompts();
    EndingAtOnce(s, owner, t, abort);
    var c, r := s.tasks[t], Apply(s, if abort then AAbort(owner, t) else AComplete(owner, t));
    var status, reason := if abort then Aborted else Completed, if abort then Some(UserCancel) else None;
    Listening(c, r.state.tasks[t], [StatusChanged(status, reason)]
                                   + if HasOpen(c.rounds) then [RoundCancelled(None, reason)] else [], []);
  }

  lemma AskedTurn(s: State, owner: UserId, t: TaskId, abort: bool)
    requires t in s.tasks && InTurn(s.tasks[t])
    requires s.tasks[t].status == Ready ==> !HasOpen(s.tasks[t].rounds)
    ensures var r := Apply(s, if abort then AAbort(owner, t) else AComplete(owner, t));
            r.outcome in {Done, Requested} ==> t in r.state.tasks && InTurn(r.state.tasks[t])
  {
    hide InTurn, Apply, Says;
    AskingToEnd(s, owner, t, abort);
    var r := Apply(s, if abort then AAbort(owner, t) else AComplete(owner, t));
    if r.outcome == Requested {
      StayingInTurn(s.tasks[t], r.state.tasks[t]);
    } else if r.outcome == Done {
      EndingTurn(s, owner, t, abort);
    }
  }

  lemma OpeningTurn(s: State, a: Action, t: TaskId)
    requires t in s.tasks && InTurn(s.tasks[t]) && (a.ACommit? || a.ASend?) && Targets(a, t)
    requires Apply(s, a).outcome == Done
    requires (s.tasks[t].status == Uploading ==> !s.tasks[t].committed) && (s.tasks[t].status == Ready
        ==> s.tasks[t].committed)
    ensures t in Apply(s, a).state.tasks && InTurn(Apply(s, a).state.tasks[t])
  {
    hide InTurn, Apply, Says, Prompts;
    var c, s' := s.tasks[t], Apply(s, a).state;
    match a
    case ACommit(o, _) => {
      NoPrompts();
      Committing(s, o, t);
      Answering(c, s'.tasks[t], Round(s.next, c.initial.value, RPending, None, 0, 0),
                [StatusChanged(Queued, None), RoundQueued(s.next, None)], []);
    }
    case ASend(o, _, ok) => {
      Sending(s, o, t, ok);
      OnePrompt(Message(s.next, c.log.sequence + 1, ByUser));
      Answering(c, s'.tasks[t], Round(s.next + 1, s.next, RPending, None, 0, 0),
                [MessageSaved(s.next, ByUser, None), StatusChanged(Queued, None), RoundQueued(s.next + 1, None)],
                [Message(s.next, c.log.sequence + 1, ByUser)]);
    }
  }

  lemma UserTurn(s: State, a: Action, t: TaskId)
    requires t in s.tasks && InTurn(s.tasks[t]) && UserStep(a) && !a.ACommit? && !a.ASend? && Targets(a, t)
    requires Apply(s, a).outcome in {Done, Requested}
    requires s.tasks[t].status == Ready ==> !HasOpen(s.tasks[t].rounds)
    ensures t in Apply(s, a).state.tasks && InTurn(Apply(s, a).state.tasks[t])
  {
    hide InTurn, Apply, Says, Prompts;
    NoPrompts();
    var c, s' := s.tasks[t], Apply(s, a).state;
    match a
    case AUpload(o, _, ups) => { StagedFiles(s, o, t, ups); StagingFiles(s, o, t, ups); StayingInTurn(c, s'.tasks[t]); }
    case ADeleteFile(o, _, f) => { DeletingFile(s, o, t, f); StayingInTurn(c, s'.tasks[t]); }
    case AAbort(o, _) => AskedTurn(s, o, t, true);
    case AComplete(o, _) => AskedTurn(s, o, t, false);
    case ADelete(o, _) => {
      Deleting(s, o, t);
      Listening(c, s'.tasks[t], [StatusChanged(Deleted, None)]
                                + if HasOpen(c.rounds) && c.status != Running then [RoundCancelled(None, None)]
                                    else [], []);
    }
  }

  lemma DispatcherTurn(s: State, a: Action, t: TaskId)
    requires t in s.tasks && InTurn(s.tasks[t]) && SweepStep(a) && Targets(a, t) && Apply(s, a).outcome == Done
    ensures t in Apply(s, a).state.tasks && InTurn(Apply(s, a).state.tasks[t])
  {
    hide InTurn, Apply, Says, Prompts;
    NoPrompts();
    var c, s' := s.tasks[t], Apply(s, a).state;
    match a
    case AClaim(_, r, i) => {
      Claiming(s, t, r, i);
      var round := c.rounds[|c.rounds| - 1];
      Listening(c, s'.tasks[t], [StatusChanged(Running, None), RoundRunning(r, round.attempt + 1)], []);
    }
    case AReclaim(_, r, lo, le) => {
      Reclaiming(s, t, r, lo, le);
      var round := c.rounds[|c.rounds| - 1];
      Listening(c, s'.tasks[t], if round.attempt < 3
          then [StatusChanged(Queued, None), RoundQueued(r, Some(round.attempt))]
                                else [StatusChanged(Failed, Some(RoundLost)), RoundFailed(r, round.attempt)], []);
    }
    case ACancelRound(_, r) => { Collecting(s, t, r); Listening(c, s'.tasks[t], [RoundCancelled(Some(r), None)], []); }
    case ASweepUpload(_) => {
      ExpiringUpload(s, t);
      Listening(c, s'.tasks[t], [StatusChanged(Failed, Some(UploadExpired))], []);
    }
    case AListEnded(_) => ListingStays(s, a, t);
    case ASweepEnded(_) => { SweepingEnded(s, t); SweptInTurn(s'.tasks[t]); }
  }

  lemma SweptInTurn(c: Cell)
    requires c.rounds == [] && c.initial == None && c.log.messages == []
    ensures InTurn(c)
  {
  }

  lemma ListingStays(s: State, a: Action, t: TaskId)
    requires t in s.tasks && (a.AListEnded? || a.AListDrained?)
    ensures Apply(s, a).state.tasks == s.tasks
  {
    hide HasOpen;
  }

  lemma ExecutorTurn(s: State, a: Action, t: TaskId)
    requires t in s.tasks && InTurn(s.tasks[t]) && !UserStep(a) && !SweepStep(a) && Targets(a, t)
    requires Apply(s, a).outcome == Done
    requires s.tasks[t].status == Running ==> s.tasks[t].pending != Some(ToDeleted)
    ensures t in Apply(s, a).state.tasks && InTurn(Apply(s, a).state.tasks[t])
  {
    hide InTurn, Apply, Says, Prompts;
    NoPrompts();
    var c, s' := s.tasks[t], Apply(s, a).state;
    var n := |c.rounds| - 1;
    match a
    case APersistFact(_, r, i, e, au) => {
      SavingFact(s, t, r, i, e, au);
      OnePrompt(Message(s.next, c.log.sequence + 1, au));
      Listening(c, s'.tasks[t], [MessageSaved(s.next, au, Some(r))], [Message(s.next, c.log.sequence + 1, au)]);
    }
    case ASettle(_, r, i, e, tail, rev) => {
      Settling(s, t, r, i, e, tail, rev);
      OnePrompt(Message(s.next, c.log.sequence + 1, ByAssistant));
      Listening(c, s'.tasks[t],
                (if tail then [MessageSaved(s.next, ByAssistant, Some(r))] else [])
                + [RoundSettled(r, c.rounds[n].attempt),
                   StatusChanged(if rev then Aborted else Ready, if rev then Some(KeyRevoked) else None)],
                if tail then [Message(s.next, c.log.sequence + 1, ByAssistant)] else []);
    }
    case AFailDeadline(_, r, i, e) => {
      FailingDeadline(s, t, r, i, e);
      Listening(c, s'.tasks[t], [StatusChanged(Failed, Some(RoundLost)), RoundFailed(r, c.rounds[n].attempt)], []);
    }
    case AListDrained(_) => ListingStays(s, a, t);
    case AReconcile(_, p) => {
      Reconciling(s, t, p);
      Listening(c, s'.tasks[t], [StatusChanged(if p == ToAborted then Aborted else Completed,
                                               if p == ToAborted then Some(UserCancel) else None)], []);
    }
    case AKill(_) => StoppedTurn(s, t, false);
    case ASuspend(_) => StoppedTurn(s, t, true);
    case ARegisterOutput(o, _, r, e, name, size) => {
      var i := if Own(s, o, t) then WhereLive(c.files, name) else -1;
      RefusingArtifact(s, o, t, r, e, name, size, i);
      RegisteringArtifact(s, o, t, r, e, name, size, i);
      StayingInTurn(c, s'.tasks[t]);
    }
  }

  lemma StoppedTurn(s: State, t: TaskId, suspend: bool)
    requires t in s.tasks && InTurn(s.tasks[t])
    requires Apply(s, if suspend then ASuspend(t) else AKill(t)).outcome == Done
    ensures var s' := Apply(s, if suspend then ASuspend(t) else AKill(t)).state; t in s'.tasks && InTurn(s'.tasks[t])
  {
    hide InTurn, Apply, Says;
    NoPrompts();
    Stopping(s, t, suspend);
    var c, s' := s.tasks[t], Apply(s, if suspend then ASuspend(t) else AKill(t)).state;
    var why := Some(if suspend then AdminSuspended else ToolRevoked);
    Listening(c, s'.tasks[t], [StatusChanged(Aborted, why)]
              + if HasOpen(c.rounds) then [RoundCancelled(Some(c.rounds[|c.rounds| - 1].id), why)] else [], []);
  }

  lemma TurnFacts(s: State, t: TaskId)
    requires Inv(s) && t in s.tasks
    ensures var c := s.tasks[t];
            && t < s.next
            && (c.status == Uploading ==> !c.committed) && (c.status == Ready ==> c.committed && !HasOpen(c.rounds))
            && (c.status == Running ==> c.pending != Some(ToDeleted))
  {
    hide Inv, HoldsOk, Backed, Occupies;
    Parts(s, t);
    Known(s, t);
  }

  lemma TargetTurn(s: State, a: Action, t: TaskId)
    requires Inv(s) && t in s.tasks && InTurn(s.tasks[t]) && Targets(a, t) && Apply(s, a).outcome in {Done, Requested}
    ensures t in Apply(s, a).state.tasks && InTurn(Apply(s, a).state.tasks[t])
  {
    hide Inv, InTurn, Apply, HasOpen;
    TurnFacts(s, t);
    if a.ACommit? || a.ASend? {
      if Apply(s, a).outcome == Requested { OnlyEndsAreRequested(s, a); }
      OpeningTurn(s, a, t);
    } else if UserStep(a) {
      UserTurn(s, a, t);
    } else {
      if Apply(s, a).outcome == Requested { OnlyEndsAreRequested(s, a); }
      if SweepStep(a) { DispatcherTurn(s, a, t); } else { ExecutorTurn(s, a, t); }
    }
  }

  lemma OnlyEndsAreRequested(s: State, a: Action)
    requires Apply(s, a).outcome == Requested
    ensures a.AAbort? || a.AComplete?
  {
    hide Put, GiveTier, Give, HasOpen;
  }

  lemma RevokedTurn(s: State, a: Action, t: TaskId)
    requires Inv(s) && t in s.tasks && InTurn(s.tasks[t]) && a.ARevokeProvider?
    ensures t in Apply(s, a).state.tasks && InTurn(Apply(s, a).state.tasks[t])
  {
    hide Inv, InTurn, Apply, Says, Prompts;
    forall x | x in s.tasks ensures x < s.next { TurnFacts(s, x); }
    Revoking(s, a.owner, a.provider);
    var c, c' := s.tasks[t], Apply(s, a).state.tasks[t];
    NoPrompts();
    if Effects.Waiting(c, a.owner, a.provider) {
      Listening(c, c', [StatusChanged(Failed, Some(KeyRevoked))]
                       + if HasOpen(c.rounds) then [RoundCancelled(None, Some(KeyRevoked))] else [], []);
    }
  }

  lemma NewTurn(s: State, a: Action, t: TaskId)
    requires Inv(s) && t !in s.tasks && t in Apply(s, a).state.tasks
    ensures InTurn(Apply(s, a).state.tasks[t])
  {
    hide Inv, Apply, InTurn;
    if !a.ACreate? { NoNewTask(s, a); }
    RefusingTask(s, a.owner, a.provider, a.day, a.admitted, a.toolsOn);
    CreatingTask(s, a.owner, a.provider, a.day, a.admitted, a.toolsOn);
    StepOk(s, a);
    FirstTurn(Apply(s, a).state.tasks[t]);
  }

  lemma FirstTurn(c: Cell)
    requires !c.committed && c.rounds == [] && c.initial.Some?
    requires c.log.messages == [Message(c.initial.value, 1, ByUser)]
    ensures InTurn(c)
  {
    OnePrompt(c.log.messages[0]);
  }

  lemma TurnsStep(s: State, a: Action)
    requires Inv(s) && AllInTurn(s)
    ensures AllInTurn(Apply(s, a).state)
  {
    hide Inv, Apply, InTurn, Evolves;
    StepOk(s, a);
    var s' := Apply(s, a).state;
    forall t | t in s'.tasks ensures InTurn(s'.tasks[t]) {
      if t !in s.tasks {
        NewTurn(s, a, t);
      } else if a.ARevokeProvider? {
        RevokedTurn(s, a, t);
      } else if !Targets(a, t) {
        Elsewhere(s, a, t);
      } else if Apply(s, a).outcome in {Done, Requested} {
        TargetTurn(s, a, t);
      }
    }
  }

  lemma {:induction false} TurnsAlong(s: State, actions: seq<Action>)
    requires Inv(s) && AllInTurn(s)
    ensures AllInTurn(Run(s, actions))
  {
    hide Inv, Apply, AllInTurn;
    if actions == [] {
    } else {
      var front := actions[..|actions| - 1];
      TurnsAlong(s, front);
      RunOk(s, front);
      TurnsStep(Run(s, front), actions[|actions| - 1]);
    }
  }

  /** The user said it, and it is there. */
  predicate Said(messages: seq<Message>, id: MessageId) {
    exists m :: m in messages && m.id == id && m.author == ByUser
  }

  /** In every reachable database the rounds of a committed task answer the
      user's messages in its log, one each and in order; before the commit there
      is the initial message alone. */
  lemma EveryMessageItsRound(s: State, t: TaskId)
    requires Reachable(s) && t in s.tasks
    ensures InTurn(s.tasks[t])
    ensures forall i | 0 <= i < |s.tasks[t].rounds| :: Said(s.tasks[t].log.messages, s.tasks[t].rounds[i].source)
  {
    hide Inv, Run, Said;
    var n: nat, m: nat, actions: seq<Action> :| s == Run(Init(n, m), actions);
    InitOk(n, m);
    TurnsAlong(Init(n, m), actions);
    var c := s.tasks[t];
    forall i | 0 <= i < |c.rounds| ensures Said(c.log.messages, c.rounds[i].source) {
      assert Sources(c.rounds)[i] == c.rounds[i].source;
      PromptIsSaid(c.log.messages, c.rounds[i].source);
    }
  }

  lemma {:induction false} PromptIsSaid(messages: seq<Message>, id: MessageId)
    requires id in Prompts(messages)
    ensures Said(messages, id)
  {
    var front, m := messages[..|messages| - 1], messages[|messages| - 1];
    assert m in messages;
    if id in Prompts(front) {
      PromptIsSaid(front, id);
      var x :| x in front && x.id == id && x.author == ByUser;
      assert x in messages;
    }
  }
}
