/** The idempotency engine: one table with a unique key, lookups that sweep
    expired rows on a miss, and stores that run inside a business transaction.
    Time is one clock that does not go back. */
module Idempotency {
  import opened TaskTypes

  datatype Key = Key(subject: string, route: string, key: string)
  datatype Response = Response(status: int, body: string)
  datatype Record = Record(hash: string, response: Response, expires: int)

  /** 24 hours, in milliseconds. */
  const RECORD_TTL: int := 24 * 60 * 60 * 1000

  /** A business transaction that committed together with its record. */
  datatype Effect = Effect(key: Key, hash: string, response: Response, at: int)

  /** `effects` is the full history; the code keeps only the rows. */
  datatype Table = Table(rows: map<Key, Record>, effects: seq<Effect>, clock: int)

  datatype Answer = Miss | Replay(response: Response) | Conflict | Stored

  predicate Fresh(rows: map<Key, Record>, k: Key, now: int) {
    k in rows && rows[k].expires > now
  }

  /** begin: replay, refuse, or miss and delete every expired row. */
  function Begin(s: Table, now: int, k: Key, hash: string): (Table, Answer) {
    if Fresh(s.rows, k, now) then
      (s.(clock := now), if s.rows[k].hash == hash then Replay(s.rows[k].response) else Conflict)
    else
      (s.(rows := map r | r in s.rows && s.rows[r].expires > now :: s.rows[r], clock := now), Miss)
  }

  /** store, at the end of a business transaction: clear one's own expired row,
      insert, and let the unique index refuse. A refusal rolls back everything,
      the business effect included. */
  function Store(s: Table, now: int, k: Key, hash: string, response: Response): (Table, Answer) {
    var rows := if k in s.rows && s.rows[k].expires <= now then s.rows - {k} else s.rows;
    if k in rows then (s.(clock := now), Conflict)
    else (Table(rows[k := Record(hash, response, now + RECORD_TTL)], s.effects + [Effect(k, hash, response, now)],
        now), Stored)
  }

  datatype Call = Beginning(now: int, key: Key, hash: string) | Storing(now: int, key: Key, hash: string,
                            response: Response)

  function Step(s: Table, c: Call): (Table, Answer) {
    match c
    case Beginning(now, k, h) => Begin(s, now, k, h)
    case Storing(now, k, h, r) => Store(s, now, k, h, r)
  }

  const EMPTY: Table := Table(map[], [], 0)

  /** Any interleaving of lookups and stores, of any requests. */
  function Run(calls: seq<Call>): Table {
    if calls == [] then EMPTY else Step(Run(calls[..|calls| - 1]), calls[|calls| - 1]).0
  }

  predicate InTime(calls: seq<Call>) {
    && (forall i | 0 <= i < |calls| :: 0 <= calls[i].now)
    && (forall i, j | 0 <= i < j < |calls| :: calls[i].now <= calls[j].now)
  }

  /** The effect whose replay window is open, if any: the newest of its key. */
  function Remembered(effects: seq<Effect>, k: Key, now: int): Option<Effect> {
    if effects == [] then None else
      var e := effects[|effects| - 1];
      if e.key == k then (if now < e.at + RECORD_TTL then Some(e) else None)
      else Remembered(effects[..|effects| - 1], k, now)
  }

  /** The rows that are still in their window are exactly the remembered
      effects, and committed effects of one key are a window apart. */
  ghost predicate Inv(s: Table) {
    && (forall k: Key, now: int | s.clock <= now :: Agrees(s, k, now))
    && (forall i | 0 <= i < |s.effects| :: s.effects[i].at <= s.clock)
    && Apart(s.effects)
  }

  predicate Agrees(s: Table, k: Key, now: int) {
    match Remembered(s.effects, k, now)
    case None => !Fresh(s.rows, k, now)
    case Some(e) => k in s.rows && s.rows[k] == Record(e.hash, e.response, e.at + RECORD_TTL)
  }

  predicate Apart(effects: seq<Effect>) {
    forall i, j | 0 <= i < j < |effects| && effects[i].key == effects[j].key ::
      effects[i].at + RECORD_TTL <= effects[j].at
  }

  /** Nothing remembered: every earlier effect of the key is a window old. */
  lemma {:induction false} ForgottenIsOld(effects: seq<Effect>, k: Key, now: int)
    requires Apart(effects) && Remembered(effects, k, now) == None
    ensures forall i | 0 <= i < |effects| && effects[i].key == k :: effects[i].at + RECORD_TTL <= now
  {
    if effects != [] && effects[|effects| - 1].key != k {
      ForgottenIsOld(effects[..|effects| - 1], k, now);
    }
  }

  lemma {:induction false} RememberedHolds(effects: seq<Effect>, k: Key, now: int)
    requires Remembered(effects, k, now).Some?
    ensures var e := Remembered(effects, k, now).value;
            e in effects && e.key == k && now < e.at + RECORD_TTL
  {
    if effects[|effects| - 1].key != k {
      RememberedHolds(effects[..|effects| - 1], k, now);
    }
  }

  lemma BeginKeeps(s: Table, now: int, k: Key, hash: string)
    requires Inv(s) && s.clock <= now
    ensures Inv(Begin(s, now, k, hash).0)
  {
    var s' := Begin(s, now, k, hash).0;
    forall r: Key, later: int | now <= later ensures Agrees(s', r, later) {
      assert Agrees(s, r, later);
      if Remembered(s.effects, r, later).Some? { RememberedHolds(s.effects, r, later); }
    }
  }

  lemma StoreKeeps(s: Table, now: int, k: Key, hash: string, response: Response)
    requires Inv(s) && s.clock <= now
    ensures Inv(Store(s, now, k, hash, response).0)
    ensures Store(s, now, k, hash, response).1 == if Remembered(s.effects, k, now) == None then Stored else Conflict
  {
    assert Agrees(s, k, now);
    var s' := Store(s, now, k, hash, response).0;
    if Remembered(s.effects, k, now) == None {
      ForgottenIsOld(s.effects, k, now);
      StoredAgrees(s, now, k, hash, response);
    } else {
      RememberedHolds(s.effects, k, now);
      forall r: Key, later: int | now <= later ensures Agrees(s', r, later) {
        assert Agrees(s, r, later);
      }
    }
  }

  lemma StoredAgrees(s: Table, now: int, k: Key, hash: string, response: Response)
    requires Inv(s) && s.clock <= now && !Fresh(s.rows, k, now)
    ensures var s' := Store(s, now, k, hash, response).0;
            s'.effects == s.effects + [Effect(k, hash, response, now)]
            && forall r: Key, later: int | now <= later :: Agrees(s', r, later)
  {
    var s' := Store(s, now, k, hash, response).0;
    assert s'.effects[..|s.effects|] == s.effects;
    forall r: Key, later: int | now <= later ensures Agrees(s', r, later) {
      assert Agrees(s, r, later);
    }
  }

  lemma {:induction false} RunKeeps(calls: seq<Call>)
    requires InTime(calls)
    ensures Inv(Run(calls))
    ensures Run(calls).clock == if calls == [] then 0 else calls[|calls| - 1].now
  {
    hide Inv;
    if calls == [] {
      assert Inv(EMPTY) by { EmptyKeeps(); }
    } else {
      var front, c := calls[..|calls| - 1], calls[|calls| - 1];
      RunKeeps(front);
      if front != [] { assert front[|front| - 1] == calls[|calls| - 2]; }
      match c
      case Beginning(now, k, h) => BeginKeeps(Run(front), now, k, h);
      case Storing(now, k, h, r) => StoreKeeps(Run(front), now, k, h, r);
    }
  }

  lemma EmptyKeeps()
    ensures Inv(EMPTY)
  {
  }

  /** Exactly once: however lookups and stores of however many requests
      interleave, two committed effects of one key are at least 24 hours apart. */
  lemma {:induction false} EffectsApart(calls: seq<Call>, i: nat, j: nat)
    requires InTime(calls)
    requires i < j < |Run(calls).effects| && Run(calls).effects[i].key == Run(calls).effects[j].key
    ensures Run(calls).effects[i].at + 86_400_000 <= Run(calls).effects[j].at
  {
    hide Run;
    RunKeeps(calls);
  }

  /** Every lookup answers from the history alone: inside the window it replays
      the committed response to the same request and refuses another, outside
      it misses. Deleting rows is never seen. */
  lemma {:induction false} BeginAnswers(calls: seq<Call>, now: int, k: Key, hash: string)
    requires InTime(calls) && 0 <= now && (calls != [] ==> calls[|calls| - 1].now <= now)
    ensures var answer, effects := Begin(Run(calls), now, k, hash).1, Run(calls).effects;
            && (forall i | 0 <= i < |effects| && effects[i].key == k && now < effects[i].at + 86_400_000 ::
                  answer == if effects[i].hash == hash then Replay(effects[i].response) else Conflict)
            && ((forall i | 0 <= i < |effects| && effects[i].key == k :: effects[i].at + 86_400_000 <= now) ==>
                  answer == Miss)
  {
    hide Run;
    RunKeeps(calls);
    var s := Run(calls);
    assert Agrees(s, k, now);
    if Remembered(s.effects, k, now).Some? { RememberedHolds(s.effects, k, now); }
    forall i | 0 <= i < |s.effects| && s.effects[i].key == k && now < s.effects[i].at + 86_400_000
      ensures Remembered(s.effects, k, now) == Some(s.effects[i])
    {
      NewestOfKey(s.effects, i, now);
    }
  }

  /** A store commits exactly if no effect of its key is inside its window: an
      expired row that was left behind never blocks it. */
  lemma {:induction false} StoreAnswers(calls: seq<Call>, now: int, k: Key, hash: string, response: Response)
    requires InTime(calls) && 0 <= now && (calls != [] ==> calls[|calls| - 1].now <= now)
    ensures var s := Run(calls);
            Store(s, now, k, hash, response).1 ==
              if forall i | 0 <= i < |s.effects| && s.effects[i].key == k :: s.effects[i].at + 86_400_000 <= now
              then Stored else Conflict
  {
    hide Run;
    RunKeeps(calls);
    var s := Run(calls);
    StoreKeeps(s, now, k, hash, response);
    if Remembered(s.effects, k, now) == None {
      ForgottenIsOld(s.effects, k, now);
    } else {
      RememberedHolds(s.effects, k, now);
    }
  }

  /** What a call leaves of the table: a miss takes every expired row and no
      other, a store adds its row for a day, and nothing else changes a row. */
  lemma RowsLeft(s: Table, now: int, k: Key, hash: string, response: Response)
    ensures var rows, looked := s.rows, Begin(s, now, k, hash);
            forall r :: r in looked.0.rows <==> r in rows && (looked.1 == Miss ==> rows[r].expires > now)
    ensures forall r | r in Begin(s, now, k, hash).0.rows :: Begin(s, now, k, hash).0.rows[r] == s.rows[r]
    ensures var stored := Store(s, now, k, hash, response);
            stored.0.rows == if stored.1 == Stored then s.rows[k := Record(hash, response, now + 86_400_000)]
                else s.rows
  {
  }

  /** A window that is open stays open, and replays the same response, until it
      is over: nothing overwrites it. */
  lemma {:induction false} ReplayStable(calls: seq<Call>, more: seq<Call>, e: Effect, now: int)
    requires InTime(calls + more) && e in Run(calls).effects
    requires e.at <= now < e.at + 86_400_000 && (calls + more != [] ==> (calls + more)[|calls + more| - 1].now <= now)
    ensures Begin(Run(calls + more), now, e.key, e.hash).1 == Replay(e.response)
  {
    EffectsGrow(calls, more);
    RunKeeps(calls + more);
    var effects := Run(calls + more).effects;
    var i :| 0 <= i < |Run(calls).effects| && Run(calls).effects[i] == e;
    assert effects[i] == e;
    NewestOfKey(effects, i, now);
    assert Agrees(Run(calls + more), e.key, now);
  }

  lemma {:induction false} EffectsGrow(calls: seq<Call>, more: seq<Call>)
    ensures Run(calls).effects <= Run(calls + more).effects
  {
    if more == [] {
      assert calls + more == calls;
    } else {
      EffectsGrow(calls, more[..|more| - 1]);
      assert (calls + more)[..|calls + more| - 1] == calls + more[..|more| - 1];
    }
  }

  lemma {:induction false} NewestOfKey(effects: seq<Effect>, i: nat, now: int)
    requires Apart(effects) && i < |effects| && now < effects[i].at + RECORD_TTL
    requires forall j | 0 <= j < |effects| :: effects[j].at <= now
    ensures Remembered(effects, effects[i].key, now) == Some(effects[i])
  {
    var n := |effects| - 1;
    if i >= n {
    } else {
      assert effects[n].key != effects[i].key;
      NewestOfKey(effects[..n], i, now);
    }
  }

  // What makes two requests the same.

  /** A JSON value; only being null matters to the redaction. */
  datatype Json = Null | Text(text: string) | Other(canonical: string)

  const CREDENTIAL_FIELDS: set<string> := {
    "password", "new_password", "invitation_token", "verify_token", "reset_token", "cancel_token", "api_key",
    "totp_code"
  }
  const REDACTED: Json := Text("***IDEMPOTENCY-REDACTED***")
  const REDACTED_NULL: Json := Text("***IDEMPOTENCY-REDACTED-NULL***")

  /** The body that request_hash digests. */
  function Redacted(payload: map<string, Json>): map<string, Json> {
    map k | k in payload ::
      if k !in CREDENTIAL_FIELDS then payload[k] else if payload[k] == Null then REDACTED_NULL else REDACTED
  }

  /** Two payloads digest alike exactly if they differ in nothing but the values
      of credentials: a credential that is absent, null or given stays apart. */
  lemma RedactionForgets(p: map<string, Json>, q: map<string, Json>)
    ensures var secrets := {"password", "new_password", "invitation_token", "verify_token", "reset_token",
                            "cancel_token", "api_key", "totp_code"};
            Redacted(p) == Redacted(q) <==>
              && p.Keys == q.Keys
              && forall k | k in p :: if k in secrets then p[k] == Null <==> q[k] == Null else p[k] == q[k]
  {
    assert Redacted(p).Keys == p.Keys && Redacted(q).Keys == q.Keys;
    assert REDACTED.text[23] != REDACTED_NULL.text[23];
    if Redacted(p) == Redacted(q) {
      forall k | k in p ensures k in q && if k in CREDENTIAL_FIELDS then p[k] == Null <==> q[k] == Null
          else p[k] == q[k] {
        assert Redacted(p)[k] == Redacted(q)[k];
      }
    }
  }

  // The object.

  class Engine {
    var rows: map<Key, Record>
    ghost var effects: seq<Effect>
    ghost var clock: int

    ghost function View(): Table
      reads this
    {
      Table(rows, effects, clock)
    }

    constructor ()
      ensures View() == EMPTY
    {
      rows, effects, clock := map[], [], 0;
    }

    method Lookup(now: int, k: Key, hash: string) returns (answer: Answer)
      modifies this
      ensures (View(), answer) == Begin(old(View()), now, k, hash)
    {
      clock := now;
      if k in rows && rows[k].expires > now {
        if rows[k].hash != hash { return Conflict; }
        return Replay(rows[k].response);
      }
      rows := map r | r in rows && rows[r].expires > now :: rows[r];
      return Miss;
    }

    /** The business transaction commits with its record, or not at all. */
    method CommitWith(now: int, k: Key, hash: string, response: Response) returns (answer: Answer)
      modifies this
      ensures (View(), answer) == Store(old(View()), now, k, hash, response)
    {
      clock := now;
      var before := rows;
      if k in rows && rows[k].expires <= now { rows := rows - {k}; }
      if k in rows {
        rows := before;
        return Conflict;
      }
      rows := rows[k := Record(hash, response, now + RECORD_TTL)];
      effects := effects + [Effect(k, hash, response, now)];
      return Stored;
    }
  }
}
