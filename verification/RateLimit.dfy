/** The sliding-window rate limiter: count, insert and clean up in one
    transaction. A call's time is its transaction's start, in microseconds; it is
    taken before the lock, and the lock orders only calls with the same subjects
    while the clean-up takes a whole scope's. So calls come one at a time here,
    but in any order of their times. */
module RateLimit {
  import opened TaskTypes

  datatype Event = Mark(scope: string, subject: string, at: int)

  datatype Limit = Limit(count: nat, window: nat)

  const SECOND: int := 1_000_000

  /** Limit and window in seconds, by scope. */
  function Limits(): map<string, Limit> {
    map[
      "login" := Limit(10, 900),
      "invitation_accept" := Limit(5, 3600),
      "email_verify_resend" := Limit(3, 3600),
      "password_reset_request" := Limit(3, 3600),
      "deletion_cancel_invalid" := Limit(10, 3600),
      "deletion_cancel_attempt" := Limit(10, 3600),
      "mfa_failure" := Limit(10, 900),
      "password_change_totp" := Limit(5, 900),
      "provider_test" := Limit(10, 3600),
      "mcp_discover" := Limit(10, 3600),
      "report" := Limit(10, 86400),
      "discover" := Limit(60, 3600),
      "task_create" := Limit(30, 86400),
      "upload" := Limit(60, 3600),
      "send_message" := Limit(60, 3600),
      "sse_connect" := Limit(60, 3600),
      "admin_kill_switch" := Limit(10, 3600)
    ]
  }

  predicate Known(scope: string) {
    scope in Limits()
  }

  function LimitOf(scope: string): nat
    requires Known(scope)
  {
    Limits()[scope].count
  }

  /** The window's length in microseconds. */
  function WindowOf(scope: string): nat
    requires Known(scope)
  {
    Limits()[scope].window * SECOND
  }

  datatype Verdict = Unregistered | NoSubjects | TooMany(retryAfter: int) | Admitted

  // Counting.

  predicate Recent(e: Event, scope: string, subject: string, from: int) {
    e.scope == scope && e.subject == subject && from < e.at
  }

  /** COUNT(*) ... WHERE occurred_at > from: also what lies after the caller's time. */
  function Tally(events: seq<Event>, scope: string, subject: string, from: int): nat {
    if events == [] then 0 else
      Tally(events[..|events| - 1], scope, subject, from) +
        (if Recent(events[|events| - 1], scope, subject, from) then 1 else 0)
  }

  /** How many events of the subject lie in the half-open window (from, to]. */
  function Count(events: seq<Event>, scope: string, subject: string, from: int, to: int): nat {
    if events == [] then 0 else
      var e := events[|events| - 1];
      Count(events[..|events| - 1], scope, subject, from, to) +
        (if Recent(e, scope, subject, from) && e.at <= to then 1 else 0)
  }

  function Least(a: Option<int>, b: Option<int>): Option<int> {
    match (a, b)
    case (Some(x), Some(y)) => if x <= y then a else b
    case (Some(_), None) => a
    case (None, _) => b
  }

  /** MIN(occurred_at) over all of the subjects. */
  function Oldest(events: seq<Event>, scope: string, subjects: seq<string>, from: int): Option<int> {
    if events == [] then None else
      var e := events[|events| - 1];
      Least(Oldest(events[..|events| - 1], scope, subjects, from),
            if e.subject in subjects && Recent(e, scope, e.subject, from) then Some(e.at) else None)
  }

  /** DELETE ... WHERE scope = :scope AND occurred_at <= cutoff */
  function Kept(events: seq<Event>, scope: string, cutoff: int): seq<Event> {
    if events == [] then [] else
      var e := events[|events| - 1];
      Kept(events[..|events| - 1], scope, cutoff) + (if e.scope == scope && e.at <= cutoff then [] else [e])
  }

  function Marks(scope: string, subjects: seq<string>, now: int): seq<Event> {
    if subjects == [] then [] else
      Marks(scope, subjects[..|subjects| - 1], now) + [Mark(scope, subjects[|subjects| - 1], now)]
  }

  function Ceil(micros: int): int {
    if micros % SECOND == 0 then micros / SECOND else micros / SECOND + 1
  }

  /** Seconds until the oldest event has left the window, at least one. */
  function RetryAfter(window: nat, now: int, oldest: Option<int>): (seconds: int)
    ensures oldest.Some? ==> seconds >= 1 && now + seconds * 1_000_000 >= oldest.value + window
    ensures oldest.Some? && seconds > 1 ==> now + (seconds - 1) * 1_000_000 < oldest.value + window
    ensures oldest == None ==> seconds == window / 1_000_000
  {
    if oldest == None then window / SECOND else
      var seconds := Ceil(window - (now - oldest.value));
      if seconds < 1 then 1 else seconds
  }

  // The decision, from any set of recorded events.

  predicate AtLimit(events: seq<Event>, scope: string, subjects: seq<string>, now: int)
    requires Known(scope)
  {
    exists i :: 0 <= i < |subjects| && Tally(events, scope, subjects[i], now - WindowOf(scope)) >= LimitOf(scope)
  }

  function Judge(events: seq<Event>, scope: string, subjects: seq<string>, now: int): Verdict {
    if !Known(scope) then Unregistered
    else if subjects == [] then NoSubjects
    else if AtLimit(events, scope, subjects, now) then
      TooMany(RetryAfter(WindowOf(scope), now, Oldest(events, scope, subjects, now - WindowOf(scope))))
    else Admitted
  }

  /** `log` is every event ever admitted; the code keeps `events`. */
  datatype Limiter = Limiter(events: seq<Event>, log: seq<Event>)

  datatype Call = Call(scope: string, subjects: seq<string>, now: int)

  function Ruling(s: Limiter, c: Call): Verdict {
    Judge(s.events, c.scope, c.subjects, c.now)
  }

  function Enforced(s: Limiter, c: Call): Limiter {
    if Ruling(s, c) == Admitted then
      var marks := Marks(c.scope, c.subjects, c.now);
      Limiter(Kept(s.events + marks, c.scope, c.now - WindowOf(c.scope)), s.log + marks)
    else s
  }

  const NOTHING: Limiter := Limiter([], [])

  function Run(calls: seq<Call>): Limiter {
    if calls == [] then NOTHING else Enforced(Run(calls[..|calls| - 1]), calls[|calls| - 1])
  }

  /** How each scope is ruled: an unregistered one and an empty subject list are
      the caller's mistakes, and otherwise a call is admitted exactly if every
      one of its subjects has room. */
  lemma RulingCases(s: Limiter, c: Call)
    ensures Ruling(s, c) == Unregistered <==> !Known(c.scope)
    ensures Ruling(s, c) == NoSubjects <==> Known(c.scope) && c.subjects == []
    ensures Ruling(s, c) == Admitted <==>
              && Known(c.scope) && c.subjects != []
              && forall subject | subject in c.subjects ::
                   Tally(s.events, c.scope, subject, c.now - WindowOf(c.scope)) < LimitOf(c.scope)
  {
    hide Tally, WindowOf, LimitOf, Known, Oldest, RetryAfter;
    if Known(c.scope) && AtLimit(s.events, c.scope, c.subjects, c.now) {
      var i :| 0 <= i < |c.subjects|
               && Tally(s.events, c.scope, c.subjects[i], c.now - WindowOf(c.scope)) >= LimitOf(c.scope);
      assert c.subjects[i] in c.subjects;
    }
  }

  /** What the limits promise: so many calls of a scope ... */
  lemma Promises(scope: string)
    ensures Known(scope) <==> scope in Tens() + Sixties() + {
      "invitation_accept", "password_change_totp", "email_verify_resend", "password_reset_request", "task_create"}
    ensures Known(scope) ==>
      LimitOf(scope) == if scope in Tens() then 10 else if scope in Sixties() then 60
                        else if scope == "task_create" then 30
                        else if scope in {"invitation_accept", "password_change_totp"} then 5 else 3
  {
  }

  /** ... in a quarter of an hour for sign-ins and codes, in a day for reports
      and new tasks, and in an hour for the rest. */
  lemma PromisedWindows(scope: string)
    requires Known(scope)
    ensures WindowOf(scope) == if scope in {"login", "mfa_failure", "password_change_totp"} then 900_000_000
                               else if scope in {"report", "task_create"} then 86_400_000_000 else 3_600_000_000
  {
    assert Limits()[scope].window == if scope in {"login", "mfa_failure", "password_change_totp"} then 900
                                     else if scope in {"report", "task_create"} then 86_400 else 3600;
  }

  function Tens(): set<string> {
    {"login", "mfa_failure", "deletion_cancel_invalid", "deletion_cancel_attempt", "provider_test", "mcp_discover",
     "report", "admin_kill_switch"}
  }

  function Sixties(): set<string> {
    {"discover", "upload", "send_message", "sse_connect"}
  }

  lemma AdmittedKnown(s: Limiter, c: Call)
    requires Ruling(s, c) == Admitted
    ensures Known(c.scope)
  {
  }

  lemma RunOn(calls: seq<Call>, c: Call)
    ensures Run(calls + [c]) == Enforced(Run(calls), c)
  {
    assert (calls + [c])[..|calls|] == calls;
  }

  predicate Distinct(subjects: seq<string>) {
    forall i, j | 0 <= i < j < |subjects| :: subjects[i] != subjects[j]
  }

  predicate AllDistinct(calls: seq<Call>) {
    forall c | c in calls :: Distinct(c.subjects)
  }

  // Laws of counting.

  predicate Between(e: Event, scope: string, subject: string, from: int, to: int) {
    Recent(e, scope, subject, from) && e.at <= to
  }

  function Greatest(a: int, b: int): int {
    if a <= b then b else a
  }

  lemma {:induction false} TallyAppend(a: seq<Event>, b: seq<Event>, scope: string, subject: string, from: int)
    ensures Tally(a + b, scope, subject, from) == Tally(a, scope, subject, from) + Tally(b, scope, subject, from)
  {
    if b == [] {
      assert a + b == a;
    } else {
      TallyAppend(a, b[..|b| - 1], scope, subject, from);
      assert (a + b)[..|a + b| - 1] == a + b[..|b| - 1];
    }
  }

  lemma {:induction false} CountAppend(a: seq<Event>, b: seq<Event>, scope: string, subject: string, from: int, to: int)
    ensures Count(a + b, scope, subject, from, to)
         == Count(a, scope, subject, from, to) + Count(b, scope, subject, from, to)
  {
    if b == [] {
      assert a + b == a;
    } else {
      CountAppend(a, b[..|b| - 1], scope, subject, from, to);
      assert (a + b)[..|a + b| - 1] == a + b[..|b| - 1];
    }
  }

  lemma {:induction false} OldestAppend(a: seq<Event>, b: seq<Event>, scope: string, subjects: seq<string>, from: int)
    ensures Oldest(a + b, scope, subjects, from)
         == Least(Oldest(a, scope, subjects, from), Oldest(b, scope, subjects, from))
  {
    if b == [] {
      assert a + b == a;
    } else {
      OldestAppend(a, b[..|b| - 1], scope, subjects, from);
      assert (a + b)[..|a + b| - 1] == a + b[..|b| - 1];
    }
  }

  lemma NextCounts(front: seq<Event>, e: Event, scope: string, subject: string, from: int, to: int)
    ensures Tally(front + [e], scope, subject, from)
         == Tally(front, scope, subject, from) + if Recent(e, scope, subject, from) then 1 else 0
    ensures Count(front + [e], scope, subject, from, to)
         == Count(front, scope, subject, from, to) + if Recent(e, scope, subject, from) && e.at <= to then 1 else 0
  {
    assert (front + [e])[..|front|] == front;
  }

  lemma NextDates(front: seq<Event>, e: Event, scope: string, subjects: seq<string>, from: int)
    ensures Oldest(front + [e], scope, subjects, from)
         == Least(Oldest(front, scope, subjects, from),
                  if e.subject in subjects && Recent(e, scope, e.subject, from) then Some(e.at) else None)
  {
    assert (front + [e])[..|front|] == front;
  }

  /** A window that starts later counts less exactly if an event lies between. */
  lemma {:induction false} TallyMoves(events: seq<Event>, scope: string, subject: string, from: int, later: int)
    requires from <= later
    ensures Tally(events, scope, subject, later) <= Tally(events, scope, subject, from)
    ensures Tally(events, scope, subject, later) == Tally(events, scope, subject, from)
       <==> forall e | e in events :: !Between(e, scope, subject, from, later)
  {
    if events == [] {
    } else {
      var front, e := events[..|events| - 1], events[|events| - 1];
      TallyMoves(front, scope, subject, from, later);
      assert e in events && forall x | x in events :: x in front || x == e;
    }
  }

  lemma {:induction false} OldestMoves(events: seq<Event>, scope: string, subjects: seq<string>, from: int, later: int)
    requires from <= later
    requires forall e | e in events :: e.subject in subjects ==> !Between(e, scope, e.subject, from, later)
    ensures Oldest(events, scope, subjects, later) == Oldest(events, scope, subjects, from)
  {
    if events == [] {
    } else {
      var front, e := events[..|events| - 1], events[|events| - 1];
      assert events == front + [e];
      OldestMoves(front, scope, subjects, from, later);
    }
  }

  /** A window that ends at `to` counts at most what a tally from its start does,
      and all of it if no event is later. */
  lemma {:induction false} CountWithin(events: seq<Event>, scope: string, subject: string, from: int, to: int)
    ensures Count(events, scope, subject, from, to) <= Tally(events, scope, subject, from)
    ensures (forall e | e in events :: e.at <= to) ==>
              Count(events, scope, subject, from, to) == Tally(events, scope, subject, from)
  {
    if events == [] {
    } else {
      var front, e := events[..|events| - 1], events[|events| - 1];
      CountWithin(front, scope, subject, from, to);
      assert events == front + [e];
    }
  }

  /** After a clean-up the table counts as if its windows started at the cutoff
      (those of other scopes as before), ... */
  lemma {:induction false} KeptTally(events: seq<Event>, scope: string, cutoff: int, sc: string, subject: string,
                                     from: int)
    ensures Tally(Kept(events, scope, cutoff), sc, subject, from)
         == Tally(events, sc, subject, if sc == scope then Greatest(from, cutoff) else from)
  {
    if events == [] {
    } else {
      var front, e := events[..|events| - 1], events[|events| - 1];
      var from' := if sc == scope then Greatest(from, cutoff) else from;
      KeptTally(front, scope, cutoff, sc, subject, from);
      assert events == front + [e] && Kept(front, scope, cutoff) + [] == Kept(front, scope, cutoff);
      hide Tally;
      NextCounts(front, e, sc, subject, from', from);
      NextCounts(Kept(front, scope, cutoff), e, sc, subject, from, from);
    }
  }

  /** ... and dates likewise. */
  lemma {:induction false} KeptOldest(events: seq<Event>, scope: string, cutoff: int, sc: string,
                                      subjects: seq<string>, from: int)
    ensures Oldest(Kept(events, scope, cutoff), sc, subjects, from)
         == Oldest(events, sc, subjects, if sc == scope then Greatest(from, cutoff) else from)
  {
    if events == [] {
    } else {
      var front, e := events[..|events| - 1], events[|events| - 1];
      var from' := if sc == scope then Greatest(from, cutoff) else from;
      KeptOldest(front, scope, cutoff, sc, subjects, from);
      assert events == front + [e] && Kept(front, scope, cutoff) + [] == Kept(front, scope, cutoff);
      hide Oldest;
      NextDates(front, e, sc, subjects, from');
      NextDates(Kept(front, scope, cutoff), e, sc, subjects, from);
    }
  }

  /** The sweep takes every event of the scope that has left its window, and no
      other. */
  lemma {:induction false} KeptExactly(events: seq<Event>, scope: string, cutoff: int)
    ensures forall e :: e in Kept(events, scope, cutoff) <==> e in events && !(e.scope == scope && e.at <= cutoff)
  {
    if events == [] {
    } else {
      var front, e := events[..|events| - 1], events[|events| - 1];
      KeptExactly(front, scope, cutoff);
      assert events == front + [e];
    }
  }

  lemma {:induction false} KeptAll(events: seq<Event>, scope: string, cutoff: int)
    requires forall e | e in events :: cutoff < e.at
    ensures Kept(events, scope, cutoff) == events
  {
    if events == [] {
    } else {
      var front, e := events[..|events| - 1], events[|events| - 1];
      assert events == front + [e];
      KeptAll(front, scope, cutoff);
    }
  }

  lemma {:induction false} MarksAre(scope: string, subjects: seq<string>, now: int)
    ensures forall e | e in Marks(scope, subjects, now) :: e.scope == scope && e.at == now
  {
    if subjects == [] {
    } else {
      MarksAre(scope, subjects[..|subjects| - 1], now);
    }
  }

  /** Distinct subjects are marked once each. */
  lemma {:induction false} MarkedOnce(scope: string, subjects: seq<string>, now: int, sc: string, subject: string,
                                      from: int, to: int)
    requires Distinct(subjects)
    ensures Count(Marks(scope, subjects, now), sc, subject, from, to)
         == if sc == scope && subject in subjects && from < now <= to then 1 else 0
  {
    if subjects == [] {
    } else {
      var front, last := subjects[..|subjects| - 1], subjects[|subjects| - 1];
      MarkedOnce(scope, front, now, sc, subject, from, to);
      assert subjects == front + [last];
      var marks := Marks(scope, front, now);
      assert (marks + [Mark(scope, last, now)])[..|marks|] == marks;
    }
  }

  // What the clean-ups take, exactly.

  /** Call k's clean-up took event e. */
  predicate Takes(calls: seq<Call>, k: nat, e: Event)
    requires k < |calls|
  {
    var s, c := Run(calls[..k]), calls[k];
    Ruling(s, c) == Admitted && e in s.log && e.scope == c.scope && e.at <= c.now - WindowOf(c.scope)
  }

  /** No clean-up took an event of the subject that is later than `from`. */
  ghost predicate Untouched(calls: seq<Call>, scope: string, subject: string, from: int) {
    forall k, e | 0 <= k < |calls| && Takes(calls, k, e) :: !Recent(e, scope, subject, from)
  }

  /** One more call takes an event later than `from`, or the ones before did. */
  lemma UntouchedNext(calls: seq<Call>, scope: string, subject: string, from: int)
    requires calls != []
    ensures var n := |calls| - 1;
            Untouched(calls, scope, subject, from) <==>
              Untouched(calls[..n], scope, subject, from)
              && forall e :: Takes(calls, n, e) ==> !Recent(e, scope, subject, from)
  {
    hide Recent, Run, Ruling;
    var n := |calls| - 1;
    var front := calls[..n];
    forall k: nat, e | k < n ensures Takes(calls, k, e) == Takes(front, k, e) {
      assert calls[..k] == front[..k];
    }
  }

  lemma UntouchedLater(calls: seq<Call>, scope: string, subject: string, from: int, later: int)
    requires Untouched(calls, scope, subject, from) && from <= later
    ensures Untouched(calls, scope, subject, later)
  {
    hide Takes;
  }

  /** How an admitted call changes what a window that starts at `from` counts. */
  lemma AdmitTally(s: Limiter, c: Call, subject: string, from: int)
    requires Ruling(s, c) == Admitted
    ensures var s', marks, cutoff := Enforced(s, c), Marks(c.scope, c.subjects, c.now), c.now - WindowOf(c.scope);
            && Tally(s'.log, c.scope, subject, from)
               == Tally(s.log, c.scope, subject, from) + Tally(marks, c.scope, subject, from)
            && Tally(s'.events, c.scope, subject, from)
               == Tally(s.events, c.scope, subject, Greatest(from, cutoff)) + Tally(marks, c.scope, subject, from)
  {
    hide Tally, Kept, Marks, Oldest, Judge, LimitOf, Limits;
    AdmittedKnown(s, c);
    var marks, cutoff := Marks(c.scope, c.subjects, c.now), c.now - WindowOf(c.scope);
    WindowsOpen(c.scope);
    hide WindowOf;
    KeptTally(s.events + marks, c.scope, cutoff, c.scope, subject, from);
    TallyAppend(s.events, marks, c.scope, subject, Greatest(from, cutoff));
    TallyAppend(s.log, marks, c.scope, subject, from);
    MarksAre(c.scope, c.subjects, c.now);
    TallyMoves(marks, c.scope, subject, from, Greatest(from, cutoff));
  }

  lemma AdmitElsewhere(s: Limiter, c: Call, scope: string, subject: string, from: int)
    requires Ruling(s, c) == Admitted && scope != c.scope
    ensures var s', marks := Enforced(s, c), Marks(c.scope, c.subjects, c.now);
            && Tally(s'.log, scope, subject, from)
               == Tally(s.log, scope, subject, from) + Tally(marks, scope, subject, from)
            && Tally(s'.events, scope, subject, from)
               == Tally(s.events, scope, subject, from) + Tally(marks, scope, subject, from)
  {
    hide Tally, Kept, Marks, Oldest, Judge, WindowOf, LimitOf, Limits;
    AdmittedKnown(s, c);
    var marks, cutoff := Marks(c.scope, c.subjects, c.now), c.now - WindowOf(c.scope);
    KeptTally(s.events + marks, c.scope, cutoff, scope, subject, from);
    TallyAppend(s.events, marks, scope, subject, from);
    TallyAppend(s.log, marks, scope, subject, from);
  }

  /** A clean-up keeps the table level with the log exactly if it was level in
      the window's remaining part and nothing of the window is taken. */
  lemma AdmitExact(s: Limiter, c: Call, subject: string, from: int)
    requires Ruling(s, c) == Admitted
    requires var later := Greatest(from, c.now - WindowOf(c.scope));
             && Tally(s.events, c.scope, subject, from) <= Tally(s.log, c.scope, subject, from)
             && Tally(s.events, c.scope, subject, later) <= Tally(s.log, c.scope, subject, later)
    ensures var s', later := Enforced(s, c), Greatest(from, c.now - WindowOf(c.scope));
            var level := Tally(s.events, c.scope, subject, later) == Tally(s.log, c.scope, subject, later);
            var safe := forall e | e in s.log :: !Between(e, c.scope, subject, from, later);
            && Tally(s'.events, c.scope, subject, from) <= Tally(s'.log, c.scope, subject, from)
            && (Tally(s'.events, c.scope, subject, from) == Tally(s'.log, c.scope, subject, from) <==> level && safe)
            && (level && safe ==> Tally(s.events, c.scope, subject, from) == Tally(s.log, c.scope, subject, from))
  {
    hide Tally, Between, Enforced, Ruling, WindowOf;
    AdmittedKnown(s, c);
    AdmitTally(s, c, subject, from);
    TallyMoves(s.log, c.scope, subject, from, Greatest(from, c.now - WindowOf(c.scope)));
    TallyMoves(s.events, c.scope, subject, from, Greatest(from, c.now - WindowOf(c.scope)));
  }

  lemma LastTakes(calls: seq<Call>, subject: string, from: int)
    requires calls != [] && Ruling(Run(calls[..|calls| - 1]), calls[|calls| - 1]) == Admitted
    ensures var s, c, n := Run(calls[..|calls| - 1]), calls[|calls| - 1], |calls| - 1;
            (forall e :: Takes(calls, n, e) ==> !Recent(e, c.scope, subject, from)) <==>
              forall e | e in s.log :: !Between(e, c.scope, subject, from, Greatest(from, c.now - WindowOf(c.scope)))
  {
    hide Run, Ruling, WindowOf;
    var s, c, n := Run(calls[..|calls| - 1]), calls[|calls| - 1], |calls| - 1;
    AdmittedKnown(s, c);
    var later := Greatest(from, c.now - WindowOf(c.scope));
    forall e ensures e in s.log && Between(e, c.scope, subject, from, later)
                <==> Takes(calls, n, e) && Recent(e, c.scope, subject, from) {
    }
  }

  /** In any run the table shows of a subject at most what the log of all
      admitted events does, and the same exactly if no clean-up took one of the
      subject's events out of the window. */
  lemma {:induction false} TableExact(calls: seq<Call>, scope: string, subject: string, from: int)
    ensures Tally(Run(calls).events, scope, subject, from) <= Tally(Run(calls).log, scope, subject, from)
    ensures Tally(Run(calls).events, scope, subject, from) == Tally(Run(calls).log, scope, subject, from)
       <==> Untouched(calls, scope, subject, from)
  {
    hide Tally, Untouched, Recent, Between, Enforced, Ruling, WindowOf;
    if calls == [] {
      NothingTaken(scope, subject, from);
    } else {
      var front, c := calls[..|calls| - 1], calls[|calls| - 1];
      UntouchedNext(calls, scope, subject, from);
      TableExact(front, scope, subject, from);
      if Ruling(Run(front), c) != Admitted {
        assert Run(calls) == Run(front) by { RefusedSame(Run(front), c); }
      } else if c.scope != scope {
        AdmitElsewhere(Run(front), c, scope, subject, from);
        assert forall e | Takes(calls, |calls| - 1, e) :: !Recent(e, scope, subject, from) by { OtherScope(); }
      } else {
        AdmittedKnown(Run(front), c);
        var later := Greatest(from, c.now - WindowOf(scope));
        TableExact(front, scope, subject, later);
        AdmitExact(Run(front), c, subject, from);
        LastTakes(calls, subject, from);
        if Untouched(front, scope, subject, from) { UntouchedLater(front, scope, subject, from, later); }
      }
    }
  }

  lemma RefusedSame(s: Limiter, c: Call)
    requires Ruling(s, c) != Admitted
    ensures Enforced(s, c) == s
  {
  }

  lemma OtherScope()
    ensures forall e: Event, scope, subject, from | e.scope != scope :: !Recent(e, scope, subject, from)
  {
  }

  lemma NothingTaken(scope: string, subject: string, from: int)
    ensures Untouched([], scope, subject, from) && Run([]) == NOTHING
    ensures Tally([], scope, subject, from) == 0
  {
  }

  /** Where nothing of the subjects' windows was taken, dates agree too. */
  lemma {:induction false} TableDates(calls: seq<Call>, scope: string, subjects: seq<string>, from: int)
    requires forall subject | subject in subjects :: Untouched(calls, scope, subject, from)
    ensures Oldest(Run(calls).events, scope, subjects, from) == Oldest(Run(calls).log, scope, subjects, from)
  {
    hide Oldest, Untouched, Recent, Between, Enforced, Ruling, WindowOf;
    if calls == [] {
      assert Run([]) == NOTHING by { NothingTaken(scope, "", from); }
    } else {
      var front, c := calls[..|calls| - 1], calls[|calls| - 1];
      forall subject | subject in subjects ensures Untouched(front, scope, subject, from) {
        UntouchedNext(calls, scope, subject, from);
      }
      TableDates(front, scope, subjects, from);
      if Ruling(Run(front), c) != Admitted {
        assert Run(calls) == Run(front) by { RefusedSame(Run(front), c); }
      } else if c.scope != scope {
        DatesElsewhere(Run(front), c, scope, subjects, from);
      } else {
        AdmittedKnown(Run(front), c);
        var later := Greatest(from, c.now - WindowOf(scope));
        forall subject | subject in subjects ensures Untouched(front, scope, subject, later) {
          UntouchedLater(front, scope, subject, from, later);
        }
        TableDates(front, scope, subjects, later);
        forall e | e in Run(front).log && e.subject in subjects
          ensures !Between(e, scope, e.subject, from, later)
        {
          UntouchedNext(calls, scope, e.subject, from);
          LastTakes(calls, e.subject, from);
        }
        AdmitDates(Run(front), c, subjects, from);
      }
    }
  }

  lemma AdmitDates(s: Limiter, c: Call, subjects: seq<string>, from: int)
    requires Ruling(s, c) == Admitted
    requires var later := Greatest(from, c.now - WindowOf(c.scope));
             && Oldest(s.events, c.scope, subjects, later) == Oldest(s.log, c.scope, subjects, later)
             && forall e | e in s.log && e.subject in subjects :: !Between(e, c.scope, e.subject, from, later)
    ensures var s' := Enforced(s, c);
            Oldest(s'.events, c.scope, subjects, from) == Oldest(s'.log, c.scope, subjects, from)
  {
    hide Oldest, Kept, Marks, Tally, WindowOf, LimitOf, Judge, Limits;
    AdmittedKnown(s, c);
    WindowsOpen(c.scope);
    var marks, cutoff := Marks(c.scope, c.subjects, c.now), c.now - WindowOf(c.scope);
    var later := Greatest(from, cutoff);
    KeptOldest(s.events + marks, c.scope, cutoff, c.scope, subjects, from);
    OldestAppend(s.events, marks, c.scope, subjects, later);
    OldestAppend(s.log, marks, c.scope, subjects, from);
    MarksAre(c.scope, c.subjects, c.now);
    OldestMoves(marks, c.scope, subjects, from, later);
    OldestMoves(s.log, c.scope, subjects, from, later);
  }

  lemma DatesElsewhere(s: Limiter, c: Call, scope: string, subjects: seq<string>, from: int)
    requires Ruling(s, c) == Admitted && scope != c.scope
    requires Oldest(s.events, scope, subjects, from) == Oldest(s.log, scope, subjects, from)
    ensures var s' := Enforced(s, c);
            Oldest(s'.events, scope, subjects, from) == Oldest(s'.log, scope, subjects, from)
  {
    hide Oldest, Kept, Marks, Tally, WindowOf, LimitOf, Judge, Limits;
    AdmittedKnown(s, c);
    var marks := Marks(c.scope, c.subjects, c.now);
    KeptOldest(s.events + marks, c.scope, c.now - WindowOf(c.scope), scope, subjects, from);
    OldestAppend(s.events, marks, scope, subjects, from);
    OldestAppend(s.log, marks, scope, subjects, from);
  }

  /** Unless a clean-up took an event out of the call's own window, the cleaned
      table and a log that is never cleaned give the same verdict, Retry-After
      included, whatever the order of the times. */
  lemma CleanupUnseen(calls: seq<Call>, c: Call)
    requires Known(c.scope) ==>
               forall subject | subject in c.subjects :: Untouched(calls, c.scope, subject, c.now - WindowOf(c.scope))
    ensures Ruling(Run(calls), c) == Judge(Run(calls).log, c.scope, c.subjects, c.now)
  {
    hide Tally, Oldest, Untouched, Run, RetryAfter, WindowOf, LimitOf, Known;
    if Known(c.scope) {
      var from := c.now - WindowOf(c.scope);
      forall i | 0 <= i < |c.subjects|
        ensures Tally(Run(calls).events, c.scope, c.subjects[i], from)
             == Tally(Run(calls).log, c.scope, c.subjects[i], from)
      {
        assert c.subjects[i] in c.subjects;
        TableExact(calls, c.scope, c.subjects[i], from);
      }
      TableDates(calls, c.scope, c.subjects, from);
    }
  }

  // The bound.

  predicate WindowFits(log: seq<Event>, scope: string, subject: string, to: int)
    requires Known(scope)
  {
    Count(log, scope, subject, to - WindowOf(scope), to) <= LimitOf(scope)
  }

  /** No half-open window of the scope's length, wherever it lies, holds more
      admitted events of the subject than the limit. */
  ghost predicate Fits(log: seq<Event>, scope: string, subject: string)
    requires Known(scope)
  {
    forall to :: WindowFits(log, scope, subject, to)
  }

  predicate FullTo(log: seq<Event>, scope: string, subject: string, to: int)
    requires Known(scope)
  {
    Count(log, scope, subject, to - WindowOf(scope), to) >= LimitOf(scope)
  }

  /** A window around the time is full already. */
  ghost predicate Full(log: seq<Event>, scope: string, subject: string, at: int)
    requires Known(scope)
  {
    exists to :: at <= to < at + WindowOf(scope) && FullTo(log, scope, subject, to)
  }

  /** The call would be admitted by what the table still shows, although a window
      around its time is full for one of its subjects. */
  ghost predicate Overfills(s: Limiter, c: Call, scope: string, subject: string)
    requires Known(scope)
  {
    c.scope == scope && subject in c.subjects && Ruling(s, c) == Admitted && Full(s.log, scope, subject, c.now)
  }

  lemma AdmitCount(s: Limiter, c: Call, scope: string, subject: string, from: int, to: int)
    requires Ruling(s, c) == Admitted && Distinct(c.subjects)
    ensures Count(Enforced(s, c).log, scope, subject, from, to) == Count(s.log, scope, subject, from, to)
         + if scope == c.scope && subject in c.subjects && from < c.now <= to then 1 else 0
  {
    hide Count, Marks, Kept, Judge, Distinct;
    CountAppend(s.log, Marks(c.scope, c.subjects, c.now), scope, subject, from, to);
    MarkedOnce(c.scope, c.subjects, c.now, scope, subject, from, to);
  }

  /** Call by call, the bound is kept exactly if the call does not overfill. */
  lemma BoundStep(s: Limiter, c: Call, scope: string, subject: string)
    requires Known(scope) && Distinct(c.subjects) && Fits(s.log, scope, subject)
    ensures Fits(Enforced(s, c).log, scope, subject) <==> !Overfills(s, c, scope, subject)
  {
    hide Count, Distinct, WindowOf, LimitOf, Known, Enforced, Ruling;
    var s' := Enforced(s, c);
    if Ruling(s, c) == Admitted {
      forall to ensures WindowFits(s'.log, scope, subject, to) <==>
        !(c.scope == scope && subject in c.subjects && c.now <= to < c.now + WindowOf(scope)
          && FullTo(s.log, scope, subject, to))
      {
        AdmitCount(s, c, scope, subject, to - WindowOf(scope), to);
        assert WindowFits(s.log, scope, subject, to);
      }
    } else {
      RefusedSame(s, c);
    }
  }

  lemma BoundedBefore(s: Limiter, c: Call, scope: string, subject: string)
    requires Known(scope) && Distinct(c.subjects) && Fits(Enforced(s, c).log, scope, subject)
    ensures Fits(s.log, scope, subject)
  {
    hide Count, Distinct, WindowOf, LimitOf, Known, Enforced, Ruling;
    forall to ensures WindowFits(s.log, scope, subject, to) {
      assert WindowFits(Enforced(s, c).log, scope, subject, to);
      if Ruling(s, c) == Admitted {
        AdmitCount(s, c, scope, subject, to - WindowOf(scope), to);
      } else {
        RefusedSame(s, c);
      }
    }
  }

  /** Call i of the run overfilled. */
  ghost predicate OverfillsAt(calls: seq<Call>, i: nat, scope: string, subject: string)
    requires Known(scope) && i < |calls|
  {
    Overfills(Run(calls[..i]), calls[i], scope, subject)
  }

  lemma OverfillsBefore(calls: seq<Call>, i: nat, scope: string, subject: string)
    requires Known(scope) && i + 1 < |calls|
    ensures OverfillsAt(calls, i, scope, subject) == OverfillsAt(calls[..|calls| - 1], i, scope, subject)
  {
    hide Overfills, Run, Known;
    assert calls[..|calls| - 1][..i] == calls[..i];
  }

  /** Run by run, the bound holds exactly if no call of the run overfilled. */
  lemma {:induction false} BoundExactly(calls: seq<Call>, scope: string, subject: string)
    requires Known(scope) && AllDistinct(calls)
    ensures Fits(Run(calls).log, scope, subject)
       <==> forall i | 0 <= i < |calls| :: !OverfillsAt(calls, i, scope, subject)
  {
    hide Fits, OverfillsAt, Overfills, Enforced, Distinct, Known;
    if calls == [] {
      NothingFits(scope, subject);
    } else {
      var n := |calls| - 1;
      var front := calls[..n];
      assert calls[n] in calls && forall c | c in front :: c in calls;
      BoundExactly(front, scope, subject);
      forall i | 0 <= i < n ensures OverfillsAt(calls, i, scope, subject) == OverfillsAt(front, i, scope, subject) {
        OverfillsBefore(calls, i, scope, subject);
      }
      LastOverfills(calls, scope, subject);
      if Fits(Run(front).log, scope, subject) {
        BoundStep(Run(front), calls[n], scope, subject);
      } else if Fits(Run(calls).log, scope, subject) {
        BoundedBefore(Run(front), calls[n], scope, subject);
      }
    }
  }

  lemma LastOverfills(calls: seq<Call>, scope: string, subject: string)
    requires Known(scope) && calls != []
    ensures OverfillsAt(calls, |calls| - 1, scope, subject)
         == Overfills(Run(calls[..|calls| - 1]), calls[|calls| - 1], scope, subject)
  {
  }

  lemma NothingFits(scope: string, subject: string)
    requires Known(scope)
    ensures Fits(Run([]).log, scope, subject)
  {
    hide Limits;
  }

  /** A call overfills only where a clean-up took an event that was still in the
      call's own window. */
  lemma OverfillsTaken(calls: seq<Call>, c: Call, scope: string, subject: string)
    requires Known(scope) && Overfills(Run(calls), c, scope, subject)
    ensures !Untouched(calls, scope, subject, c.now - WindowOf(scope))
  {
    hide Run, Count, Tally, Untouched, WindowOf, LimitOf, Known, Oldest, RetryAfter;
    var s, from := Run(calls), c.now - WindowOf(scope);
    var to :| c.now <= to < c.now + WindowOf(scope) && FullTo(s.log, scope, subject, to);
    CountWithin(s.log, scope, subject, to - WindowOf(scope), to);
    TallyMoves(s.log, scope, subject, from, to - WindowOf(scope));
    TableExact(calls, scope, subject, from);
    assert !AtLimit(s.events, scope, c.subjects, c.now);
  }

  /** No clean-up took an event of the subject that was still inside the window
      of a later call of the subject. */
  ghost predicate Unswept(calls: seq<Call>, scope: string, subject: string)
    requires Known(scope)
  {
    forall i | 0 <= i < |calls| && calls[i].scope == scope && subject in calls[i].subjects ::
      Untouched(calls[..i], scope, subject, calls[i].now - WindowOf(scope))
  }

  /** The sliding-window bound, in any order of the calls' times. */
  lemma WindowBound(calls: seq<Call>, scope: string, subject: string)
    requires Known(scope) && AllDistinct(calls) && Unswept(calls, scope, subject)
    ensures Fits(Run(calls).log, scope, subject)
  {
    hide Fits, Full, Untouched, Run, Ruling, AllDistinct, WindowOf, Known;
    BoundExactly(calls, scope, subject);
    forall i | 0 <= i < |calls| ensures !OverfillsAt(calls, i, scope, subject) {
      if OverfillsAt(calls, i, scope, subject) {
        OverfillsTaken(calls[..i], calls[i], scope, subject);
      }
    }
  }

  predicate InTime(calls: seq<Call>) {
    forall i, j | 0 <= i < j < |calls| :: calls[i].now <= calls[j].now
  }

  /** Where times do not go back, nothing that counts is ever taken. */
  lemma InTimeUnswept(calls: seq<Call>, scope: string, subject: string)
    requires Known(scope) && InTime(calls)
    ensures Unswept(calls, scope, subject)
  {
    hide Run, Ruling, WindowOf, Known;
    forall i | 0 <= i < |calls| && calls[i].scope == scope
      ensures Untouched(calls[..i], scope, subject, calls[i].now - WindowOf(scope))
    {
      forall k, e | 0 <= k < i && Takes(calls[..i], k, e)
        ensures !Recent(e, scope, subject, calls[i].now - WindowOf(scope))
      {
        assert calls[..i][k] == calls[k];
      }
    }
  }

  /** In particular the bound holds of every run whose times do not go back. */
  lemma InTimeBound(calls: seq<Call>, scope: string, subject: string)
    requires Known(scope) && AllDistinct(calls) && InTime(calls)
    ensures Fits(Run(calls).log, scope, subject)
  {
    hide Unswept, Fits, InTime, AllDistinct, Known, Run;
    InTimeUnswept(calls, scope, subject);
    WindowBound(calls, scope, subject);
  }

  // Retry-After.

  lemma {:induction false} OldestIs(events: seq<Event>, scope: string, subjects: seq<string>, from: int)
    ensures match Oldest(events, scope, subjects, from)
            case Some(at) => exists e :: e in events && e.at == at && e.subject in subjects
                                         && Recent(e, scope, e.subject, from)
            case None => forall e | e in events :: !(e.subject in subjects && Recent(e, scope, e.subject, from))
  {
    if events == [] {
    } else {
      var front, e := events[..|events| - 1], events[|events| - 1];
      OldestIs(front, scope, subjects, from);
      assert events == front + [e];
    }
  }

  lemma {:induction false} LogInTime(calls: seq<Call>, now: int)
    requires forall c | c in calls :: c.now <= now
    ensures forall e | e in Run(calls).log :: e.at <= now
  {
    hide Kept, Ruling;
    if calls == [] {
    } else {
      var front, c := calls[..|calls| - 1], calls[|calls| - 1];
      assert calls == front + [c];
      LogInTime(front, now);
      MarksAre(c.scope, c.subjects, c.now);
    }
  }

  /** Where times do not go back, a single subject that is refused and waits as
      long as Retry-After says is admitted, if nothing is admitted meanwhile. */
  lemma RetryAfterSuffices(calls: seq<Call>, scope: string, subject: string, now: int, later: int)
    requires InTime(calls + [Call(scope, [subject], now)]) && AllDistinct(calls)
    requires var v := Ruling(Run(calls), Call(scope, [subject], now));
             v.TooMany? && now + v.retryAfter * SECOND <= later
    ensures Ruling(Run(calls + [Call(scope, [subject], now)]), Call(scope, [subject], later)) == Admitted
  {
    hide Run, AllDistinct, WindowOf, LimitOf, Limits, Tally, Oldest;
    var c := Call(scope, [subject], now);
    RunOn(calls, c);
    AtMostLimit(calls, scope, subject, now);
    WaitingHelps(Run(calls).events, scope, subject, now, later);
  }

  lemma AtMostLimit(calls: seq<Call>, scope: string, subject: string, now: int)
    requires Known(scope) && InTime(calls + [Call(scope, [subject], now)]) && AllDistinct(calls)
    ensures Tally(Run(calls).events, scope, subject, now - WindowOf(scope)) <= LimitOf(scope)
  {
    hide Run, AllDistinct, WindowOf, LimitOf, Known, Tally, Count, Unswept, Untouched;
    var c := Call(scope, [subject], now);
    assert (calls + [c])[|calls|] == c && forall i | 0 <= i < |calls| :: (calls + [c])[i] == calls[i];
    InTimeBound(calls, scope, subject);
    assert WindowFits(Run(calls).log, scope, subject, now);
    LogInTime(calls, now);
    CountWithin(Run(calls).log, scope, subject, now - WindowOf(scope), now);
    TableExact(calls, scope, subject, now - WindowOf(scope));
  }

  /** At its limit and not beyond it, a subject has room again once the oldest
      event has left its window. */
  lemma WaitingHelps(events: seq<Event>, scope: string, subject: string, now: int, later: int)
    requires Known(scope) && Tally(events, scope, subject, now - WindowOf(scope)) <= LimitOf(scope)
    requires var v := Judge(events, scope, [subject], now); v.TooMany? && now + v.retryAfter * SECOND <= later
    ensures Judge(events, scope, [subject], later) == Admitted
  {
    hide Tally, Oldest, WindowOf, LimitOf, Known, Limits;
    WindowsOpen(scope);
    var window := WindowOf(scope);
    var from := now - window;
    assert Tally(events, scope, subject, from) == LimitOf(scope);
    OldestIs(events, scope, [subject], from);
    SomeCounted(events, scope, subject, from);
    var oldest := Oldest(events, scope, [subject], from);
    var e :| e in events && e.at == oldest.value && e.subject in [subject] && Recent(e, scope, e.subject, from);
    assert Between(e, scope, subject, from, later - window);
    TallyMoves(events, scope, subject, from, later - window);
    assert !AtLimit(events, scope, [subject], later);
  }

  lemma {:induction false} SomeCounted(events: seq<Event>, scope: string, subject: string, from: int)
    requires Tally(events, scope, subject, from) > 0
    ensures exists e :: e in events && Recent(e, scope, subject, from)
  {
    var front, e := events[..|events| - 1], events[|events| - 1];
    assert events == front + [e];
    if !Recent(e, scope, subject, from) {
      SomeCounted(front, scope, subject, from);
    }
  }

  /** ... and one that asks more than a second earlier than told is refused
      again, in any order of times: the wait is the least whole number of seconds. */
  lemma RetryAfterIsLeast(calls: seq<Call>, scope: string, subject: string, now: int, earlier: int)
    requires var v := Ruling(Run(calls), Call(scope, [subject], now));
             v.TooMany? && now <= earlier <= now + (v.retryAfter - 1) * 1_000_000
    ensures Ruling(Run(calls + [Call(scope, [subject], now)]), Call(scope, [subject], earlier)).TooMany?
  {
    hide Run, WindowOf, LimitOf, Limits, Tally, Oldest;
    RunOn(calls, Call(scope, [subject], now));
    StillFull(Run(calls).events, scope, subject, now, earlier);
  }

  lemma StillFull(events: seq<Event>, scope: string, subject: string, now: int, earlier: int)
    requires var v := Judge(events, scope, [subject], now);
             v.TooMany? && now <= earlier <= now + (v.retryAfter - 1) * 1_000_000
    ensures Judge(events, scope, [subject], earlier).TooMany?
  {
    hide Tally, Oldest, WindowOf, LimitOf, Limits;
    WindowsOpen(scope);
    var from := now - WindowOf(scope);
    OldestIs(events, scope, [subject], from);
    SomeCounted(events, scope, subject, from);
    OldestLeast(events, scope, [subject], from);
    TallyMoves(events, scope, subject, from, earlier - WindowOf(scope));
    assert Tally(events, scope, [subject][0], earlier - WindowOf(scope)) >= LimitOf(scope);
  }

  lemma {:induction false} OldestLeast(events: seq<Event>, scope: string, subjects: seq<string>, from: int)
    ensures forall e | e in events && e.subject in subjects && Recent(e, scope, e.subject, from) ::
              Oldest(events, scope, subjects, from).Some? && Oldest(events, scope, subjects, from).value <= e.at
  {
    if events == [] {
    } else {
      var front, e := events[..|events| - 1], events[|events| - 1];
      OldestLeast(front, scope, subjects, from);
      assert events == front + [e];
    }
  }

  lemma WindowsOpen(scope: string)
    requires Known(scope)
    ensures WindowOf(scope) > 0 && LimitOf(scope) >= 2
  {
  }

  // Where the order of times does break the bound.

  /** `k` calls of one subject at one time. */
  function Burst(scope: string, subject: string, at: int, k: nat): seq<Call> {
    if k == 0 then [] else Burst(scope, subject, at, k - 1) + [Call(scope, [subject], at)]
  }

  function Marked(scope: string, subject: string, at: int, k: nat): seq<Event> {
    if k == 0 then [] else Marked(scope, subject, at, k - 1) + [Mark(scope, subject, at)]
  }

  /** One call of one subject, by the count it finds. */
  lemma SingleCall(s: Limiter, scope: string, subject: string, now: int)
    requires Known(scope)
    ensures var c, mark := Call(scope, [subject], now), [Mark(scope, subject, now)];
            Enforced(s, c) ==
              if Tally(s.events, scope, subject, now - WindowOf(scope)) >= LimitOf(scope) then s
              else Limiter(Kept(s.events + mark, scope, now - WindowOf(scope)), s.log + mark)
  {
    hide Tally, Kept, Known, WindowOf, LimitOf, Oldest, RetryAfter;
    OneMark(scope, subject, now);
    hide Marks;
    var c := Call(scope, [subject], now);
    assert AtLimit(s.events, scope, [subject], now) <==>
           Tally(s.events, scope, [subject][0], now - WindowOf(scope)) >= LimitOf(scope);
  }

  lemma OneMark(scope: string, subject: string, now: int)
    ensures Marks(scope, [subject], now) == [Mark(scope, subject, now)]
  {
    assert [subject][..0] == [] && Marks(scope, [], now) == [];
  }

  lemma {:induction false} MarkedTally(scope: string, subject: string, at: int, k: nat, other: string, from: int)
    ensures Tally(Marked(scope, subject, at, k), scope, other, from) == if other == subject && from < at then k else 0
  {
    if k == 0 {
    } else {
      hide Tally;
      MarkedTally(scope, subject, at, k - 1, other, from);
      NextCounts(Marked(scope, subject, at, k - 1), Mark(scope, subject, at), scope, other, from, from);
    }
  }

  lemma {:induction false} MarkedCount(scope: string, subject: string, at: int, k: nat, from: int, to: int)
    ensures Count(Marked(scope, subject, at, k), scope, subject, from, to) == if from < at <= to then k else 0
  {
    if k == 0 {
    } else {
      hide Count;
      MarkedCount(scope, subject, at, k - 1, from, to);
      NextCounts(Marked(scope, subject, at, k - 1), Mark(scope, subject, at), scope, subject, from, to);
    }
  }

  lemma {:induction false} MarkedAll(scope: string, subject: string, at: int, k: nat)
    ensures forall e | e in Marked(scope, subject, at, k) :: e == Mark(scope, subject, at)
  {
    if k == 0 {
    } else {
      MarkedAll(scope, subject, at, k - 1);
    }
  }

  lemma BurstNext(scope: string, subject: string, at: int, k: nat)
    requires Known(scope) && k < LimitOf(scope)
    ensures var before, after := Marked(scope, subject, at, k), Marked(scope, subject, at, k + 1);
            Enforced(Limiter(before, before), Call(scope, [subject], at)) == Limiter(after, after)
  {
    hide Enforced, Tally, Kept, Known, WindowOf, LimitOf;
    WindowsOpen(scope);
    var before, cutoff := Marked(scope, subject, at, k), at - WindowOf(scope);
    SingleCall(Limiter(before, before), scope, subject, at);
    MarkedTally(scope, subject, at, k, subject, cutoff);
    MarkedAll(scope, subject, at, k + 1);
    KeptAll(Marked(scope, subject, at, k + 1), scope, cutoff);
  }

  /** A burst up to the limit is admitted whole. */
  lemma {:induction false} BurstAdmitted(scope: string, subject: string, at: int, k: nat)
    requires Known(scope) && k <= LimitOf(scope)
    ensures var marked := Marked(scope, subject, at, k); Run(Burst(scope, subject, at, k)) == Limiter(marked, marked)
  {
    hide Enforced, Known, LimitOf;
    if k == 0 {
    } else {
      BurstAdmitted(scope, subject, at, k - 1);
      RunOn(Burst(scope, subject, at, k - 1), Call(scope, [subject], at));
      BurstNext(scope, subject, at, k - 1);
    }
  }

  /** A full burst, a call of the same or another subject, one more call. */
  function OneMore(scope: string, subject: string, other: string, at: int, ahead: int, again: int): seq<Call>
    requires Known(scope)
  {
    Burst(scope, subject, at, LimitOf(scope)) + [Call(scope, [other], ahead)] + [Call(scope, [subject], again)]
  }

  /** What the second call leaves: swept, the log is full and the table as good
      as empty; otherwise the burst still counts. */
  lemma SecondCall(scope: string, subject: string, other: string, at: int, ahead: int, from: int)
    requires Known(scope)
    ensures var n, mark := LimitOf(scope), [Mark(scope, other, ahead)];
            var marked := Marked(scope, subject, at, n);
            var s := Run(Burst(scope, subject, at, n) + [Call(scope, [other], ahead)]);
            if at + WindowOf(scope) <= ahead then s.log == marked + mark && Tally(s.events, scope, subject, from) <= 1
            else s.log == marked + (if other == subject then [] else mark)
                 && Tally(s.events, scope, subject, from) == if from < at then n else 0
  {
    hide Run, Enforced, Tally, Count, Kept, Known, WindowOf, LimitOf, Burst, Marked;
    WindowsOpen(scope);
    var n, cutoff, mark := LimitOf(scope), ahead - WindowOf(scope), Mark(scope, other, ahead);
    var marked := Marked(scope, subject, at, n);
    BurstAdmitted(scope, subject, at, n);
    RunOn(Burst(scope, subject, at, n), Call(scope, [other], ahead));
    SingleCall(Limiter(marked, marked), scope, other, ahead);
    MarkedTally(scope, subject, at, n, other, cutoff);
    MarkedTally(scope, subject, at, n, subject, from);
    MarkedTally(scope, subject, at, n, subject, Greatest(from, cutoff));
    KeptTally(marked + [mark], scope, cutoff, scope, subject, from);
    NextCounts(marked, mark, scope, subject, Greatest(from, cutoff), from);
    assert marked + [] == marked;
  }

  /** How many events of the subject a window counts after all three. */
  lemma OneMoreCounts(scope: string, subject: string, other: string, at: int, ahead: int, again: int, to: int)
    requires Known(scope)
    ensures var n, w := LimitOf(scope), WindowOf(scope);
            Count(Run(OneMore(scope, subject, other, at, ahead, again)).log, scope, subject, to - w, to)
            == (if to - w < at <= to then n else 0)
             + (if at + w <= ahead && other == subject && to - w < ahead <= to then 1 else 0)
             + (if (at + w <= ahead || at + w <= again) && to - w < again <= to then 1 else 0)
  {
    hide Run, Enforced, Tally, Count, Kept, Known, WindowOf, LimitOf, Burst, Marked;
    WindowsOpen(scope);
    var n, w := LimitOf(scope), WindowOf(scope);
    var before, marked := Burst(scope, subject, at, n) + [Call(scope, [other], ahead)], Marked(scope, subject, at, n);
    var ahead', again' := Mark(scope, other, ahead), Mark(scope, subject, again);
    SecondCall(scope, subject, other, at, ahead, again - w);
    RunOn(before, Call(scope, [subject], again));
    SingleCall(Run(before), scope, subject, again);
    MarkedCount(scope, subject, at, n, to - w, to);
    NextCounts(marked, ahead', scope, subject, to - w, to);
    NextCounts(marked, again', scope, subject, to - w, to);
    NextCounts(marked + [ahead'], again', scope, subject, to - w, to);
    assert marked + [] == marked;
  }

  /** A full burst, a call of the same or another subject, one more call, at any
      times: the bound breaks exactly if the second call's clock is a window
      ahead of the burst, so that it sweeps it, and the third's is less than a
      window away from it, so that the burst still counts. */
  lemma BurstBound(scope: string, subject: string, other: string, at: int, ahead: int, again: int)
    requires Known(scope)
    ensures Fits(Run(OneMore(scope, subject, other, at, ahead, again)).log, scope, subject)
       <==> !(at + WindowOf(scope) <= ahead && at - WindowOf(scope) < again < at + WindowOf(scope))
  {
    hide Run, Count, Known, WindowOf, LimitOf, OneMore;
    WindowsOpen(scope);
    var log, w := Run(OneMore(scope, subject, other, at, ahead, again)).log, WindowOf(scope);
    forall to ensures WindowFits(log, scope, subject, to) <==>
      !(at + w <= ahead && to - w < at <= to && to - w < again <= to)
    {
      OneMoreCounts(scope, subject, other, at, ahead, again, to);
    }
    assert WindowFits(log, scope, subject, Greatest(at, again)) <==>
           !(at + w <= ahead && at - w < again < at + w);
  }

  // The object.

  class Enforcer {
    var events: seq<Event>
    ghost var log: seq<Event>

    ghost function View(): Limiter
      reads this
    {
      Limiter(events, log)
    }

    constructor ()
      ensures View() == NOTHING
    {
      events, log := [], [];
    }

    /** enforce, under its advisory lock. */
    method Enforce(scope: string, subjects: seq<string>, now: int) returns (v: Verdict)
      modifies this
      ensures v == Ruling(old(View()), Call(scope, subjects, now))
      ensures View() == Enforced(old(View()), Call(scope, subjects, now))
    {
      if !Known(scope) { return Unregistered; }
      if subjects == [] { return NoSubjects; }
      var window := WindowOf(scope);
      if AtLimit(events, scope, subjects, now) {
        return TooMany(RetryAfter(window, now, Oldest(events, scope, subjects, now - window)));
      }
      var marks := Marks(scope, subjects, now);
      events := events + marks;
      log := log + marks;
      events := Kept(events, scope, now - window);
      return Admitted;
    }
  }
}
