/** Tool dispatches: each follows a committed intent, and over the whole life of a run their number is bounded. */
module Dispatches {
  import opened Values
  import opened Models
  import opened Rebuild
  import opened Protocol
  import opened LedgerInvariant
  import opened ExactlyOnce

  // ---------------------------------------------------------------------------
  // Intent before dispatch
  // ---------------------------------------------------------------------------

  /** A dispatch follows an intent for its key that was on the ledger by then. */
  ghost predicate SentAfterIntent(env: Env, rows: seq<Row>, e: Sent) {
    && e.key == KeyOf(env.job, e.call)
    && MayRun(env, e.call) && e.call.name in env.tools
    && e.at <= |rows| && HasKey(rows[..e.at], Intent(e.key))
  }

  ghost predicate LogOk(env: Env, w: World) {
    forall n :: 0 <= n < |w.db.log| ==> w.db.log[n].sid < |w.sessions| && SentAfterIntent(env, w.db.rows, w.db.log[n])
  }

  /** All a session's step does to the dispatch log. */
  ghost predicate LogStep(env: Env, db: Db, s: Session, sid: nat, outcome: Outcome, db': Db) {
    || db'.log == db.log
    || (s.pc.Dispatch? && s.pc.i < |s.pending| && db'.rows == db.rows
        && db'.log == db.log + [Sent(sid, KeyOf(env.job, s.pending[s.pc.i]), s.pending[s.pc.i], outcome, |db.rows|)])
  }

  lemma StepLogs(env: Env, schema: Schema, db: Db, s: Session, sid: nat, asOf: Time, outcome: Outcome)
    ensures LogStep(env, db, s, sid, outcome, StepSession(env, schema, db, s, sid, asOf, outcome).0)
  {
  }

  lemma NextKeepsLog(env: Env, start: nat, w: World, a: Action)
    requires Inv(env, start, w) && LogOk(env, w)
    ensures LogOk(env, Next(env, FULL, w, a))
  {
    NextKeepsInv(env, start, w, a);
    var w' := Next(env, FULL, w, a);
    if a.Step? && a.sid < |w.sessions| {
      StepLogs(env, FULL, w.db, w.sessions[a.sid], a.sid, a.asOf, a.outcome);
      assert SessionOk(env, start, w.db, w.sessions[a.sid]);
    }
    forall n | 0 <= n < |w'.db.log|
      ensures w'.db.log[n].sid < |w'.sessions| && SentAfterIntent(env, w'.db.rows, w'.db.log[n])
    {
      if n < |w.db.log| {
        var e := w.db.log[n];
        assert SentAfterIntent(env, w.db.rows, e);
        assert w'.db.rows[..e.at] == w.db.rows[..e.at];
      } else {
        assert w'.db.rows[..|w.db.rows|] == w.db.rows;
      }
    }
  }

  lemma {:induction false} LogAlwaysOk(env: Env, now: Time, rows: seq<Row>, schedule: seq<Action>)
    requires StartOk(env.job, rows)
    ensures LogOk(env, Run(env, FULL, Enqueued(now, rows), schedule))
  {
    if schedule != [] {
      LogAlwaysOk(env, now, rows, schedule[..|schedule| - 1]);
      LedgerAlwaysOk(env, now, rows, schedule[..|schedule| - 1]);
      NextKeepsLog(env, |rows|, Run(env, FULL, Enqueued(now, rows), schedule[..|schedule| - 1]),
                   schedule[|schedule| - 1]);
    }
  }

  /** Every dispatch carries its call's key, was allowed by the policy, and came after the intent step of exactly
      that call had been committed. */
  lemma IntentPrecedesDispatch(env: Env, now: Time, rows: seq<Row>, schedule: seq<Action>, n: nat)
    returns (i: nat)
    requires StartOk(env.job, rows)
    requires n < |Run(env, FULL, Enqueued(now, rows), schedule).db.log|
    ensures var db := Run(env, FULL, Enqueued(now, rows), schedule).db;
            var e := db.log[n];
            && e.key == KeyOf(env.job, e.call) && env.policy(e.call) != Deny
            && i < e.at <= |db.rows| && db.rows[i].body == IntentStep(e.call) && db.rows[i].key == Some(Intent(e.key))
  {
    LogAlwaysOk(env, now, rows, schedule);
    LedgerAlwaysOk(env, now, rows, schedule);
    var db := Run(env, FULL, Enqueued(now, rows), schedule).db;
    var e := db.log[n];
    assert SentAfterIntent(env, db.rows, e);
    var k :| 0 <= k < e.at && db.rows[..e.at][k].key == Some(Intent(e.key));
    i := k;
    assert Shaped(env.job, db.rows[..i], db.rows[i]);
  }

  // ---------------------------------------------------------------------------
  // How often one session dispatches one key
  // ---------------------------------------------------------------------------

  function CountBy(log: seq<Sent>, sid: nat, key: Key): nat {
    if log == [] then 0
    else
      var e := log[|log| - 1];
      CountBy(log[..|log| - 1], sid, key) + if e.sid == sid && e.key == key then 1 else 0
  }

  function Attempts(env: Env, call: ToolCall): nat {
    if call.name in env.tools && env.tools[call.name] + 1 > 0 then env.tools[call.name] + 1 else 0
  }

  predicate BetweenPasses(pc: Pc) {
    pc.Claimed? || pc.Loaded? || pc.LoopTop? || pc.CheckCancel? || pc.LoadLedger? || pc.CommitPlan?
  }

  /** A key the session dispatched will not come up again: it is observed, or belongs to an earlier or to the current
      call of the pass. */
  predicate Settled(env: Env, db: Db, s: Session, key: Key) {
    if BetweenPasses(s.pc) then key in Observed(db.rows)
    else match PassIndex(s.pc)
      case None => true
      case Some(i) =>
        || key in Observed(s.steps)
        || (exists j :: 0 <= j < i && j < |s.pending| && key == KeyOf(env.job, s.pending[j]))
        || (PastIntent(s.pc) && i < |s.pending| && key == KeyOf(env.job, s.pending[i]))
  }

  ghost predicate SentOk(env: Env, db: Db, s: Session, sid: nat) {
    && (forall key :: CountBy(db.log, sid, key) > 0 ==> Settled(env, db, s, key))
    && (forall call :: CountBy(db.log, sid, KeyOf(env.job, call)) <= Attempts(env, call))
    && (s.pc.Dispatch? && s.pc.i < |s.pending| ==>
          CountBy(db.log, sid, KeyOf(env.job, s.pending[s.pc.i])) + s.pc.left == Attempts(env, s.pending[s.pc.i]))
  }

  ghost predicate SentInv(env: Env, start: nat, w: World) {
    && FreshInv(env, start, w) && RowsNeverRepeat(w.db.rows[..start]) && LogOk(env, w)
    && forall k :: 0 <= k < |w.sessions| ==> SentOk(env, w.db, w.sessions[k], k)
  }

  lemma CountAppend(log: seq<Sent>, e: Sent, sid: nat, key: Key)
    ensures CountBy(log + [e], sid, key) == CountBy(log, sid, key) + if e.sid == sid && e.key == key then 1 else 0
  {
    assert (log + [e])[..|log|] == log;
  }

  lemma {:induction false} CountOfNobody(log: seq<Sent>, sid: nat, key: Key)
    requires forall n :: 0 <= n < |log| ==> log[n].sid != sid
    ensures CountBy(log, sid, key) == 0
  {
    if log != [] {
      assert forall n :: 0 <= n < |log| - 1 ==> log[..|log| - 1][n] == log[n];
      CountOfNobody(log[..|log| - 1], sid, key);
    }
  }

  lemma OthersKeepSent(env: Env, start: nat, db: Db, db': Db, s: Session, k: nat)
    requires SessionOk(env, start, db, s) && SentOk(env, db, s, k) && Grows(db, db')
    requires db'.log == db.log || (|db'.log| == |db.log| + 1 && db'.log[..|db.log|] == db.log && db'.log[|db.log|].sid != k)
    ensures SentOk(env, db', s, k)
  {
    forall key
      ensures CountBy(db'.log, k, key) == CountBy(db.log, k, key)
      ensures CountBy(db.log, k, key) > 0 ==> Settled(env, db', s, key)
    {
      if db'.log != db.log {
        CountAppend(db.log, db'.log[|db.log|], k, key);
        assert db'.log == db.log + [db'.log[|db.log|]];
      }
      if CountBy(db.log, k, key) > 0 && key in Observed(db.rows) {
        ObservedMonotone(db.rows, db'.rows);
      }
    }
  }

  /** A call the pass has not reached was never dispatched by this session. */
  lemma NotYetSent(env: Env, start: nat, db: Db, s: Session, sid: nat, i: nat)
    requires SessionOk(env, start, db, s) && SentOk(env, db, s, sid) && !Repeats(s.pending)
    requires PassIndex(s.pc) == Some(i) && !PastIntent(s.pc) && i < |s.pending|
    ensures CountBy(db.log, sid, KeyOf(env.job, s.pending[i])) == 0
  {
    assert s.pending[i] in s.pending;
    assert !Settled(env, db, s, KeyOf(env.job, s.pending[i]));
  }

  /** What a dispatch does. */
  lemma DispatchDoes(env: Env, db: Db, s: Session, sid: nat, asOf: Time, outcome: Outcome)
    requires s.pc.Dispatch? && s.pc.i < |s.pending| && s.pc.left > 0
    ensures var (db', s') := StepSession(env, FULL, db, s, sid, asOf, outcome);
            && db'.rows == db.rows && s'.pending == s.pending && s'.steps == s.steps
            && db'.log == db.log + [Sent(sid, KeyOf(env.job, s.pending[s.pc.i]), s.pending[s.pc.i], outcome, |db.rows|)]
            && (|| s'.pc.CommitError?
                || (s'.pc.CommitObservation? && s'.pc.i == s.pc.i)
                || s'.pc == Dispatch(s.pc.i, s.pc.left - 1))
  {
  }

  /** The dispatched key is settled now, the others stay so. */
  lemma SentIsSettled(env: Env, db: Db, s: Session, sid: nat, db': Db, s': Session, e: Sent)
    requires SentOk(env, db, s, sid) && s.pc.Dispatch? && s.pc.i < |s.pending| && s.pc.left > 0
    requires db'.rows == db.rows && s'.pending == s.pending && s'.steps == s.steps && db'.log == db.log + [e]
    requires e.sid == sid && e.key == KeyOf(env.job, s.pending[s.pc.i])
    requires || s'.pc.CommitError?
             || (s'.pc.CommitObservation? && s'.pc.i == s.pc.i)
             || s'.pc == Dispatch(s.pc.i, s.pc.left - 1)
    ensures SentOk(env, db', s', sid)
  {
    forall key
      ensures CountBy(db'.log, sid, key) == CountBy(db.log, sid, key) + if e.key == key then 1 else 0
    {
      CountAppend(db.log, e, sid, key);
    }
    forall key | CountBy(db'.log, sid, key) > 0
      ensures Settled(env, db', s', key)
    {
      if key != e.key {
        assert Settled(env, db, s, key);
      }
    }
  }

  lemma DispatchKeepsSent(env: Env, start: nat, db: Db, s: Session, sid: nat, asOf: Time, outcome: Outcome)
    requires DbOk(env, start, db) && SessionOk(env, start, db, s) && SentOk(env, db, s, sid) && s.pc.Dispatch?
    ensures var (db', s') := StepSession(env, FULL, db, s, sid, asOf, outcome); SentOk(env, db', s', sid)
  {
    var (db', s') := StepSession(env, FULL, db, s, sid, asOf, outcome);
    if s.pc.left > 0 {
      DispatchDoes(env, db, s, sid, asOf, outcome);
      SentIsSettled(env, db, s, sid, db', s', db'.log[|db.log|]);
    }
  }

  lemma LoadKeepsSettled(env: Env, db: Db, s: Session, sid: nat, asOf: Time, outcome: Outcome, key: Key)
    requires GapFree(db.rows) && s.pc.LoadLedger? && key in Observed(db.rows)
    ensures var (db', s') := StepSession(env, FULL, db, s, sid, asOf, outcome); Settled(env, db', s', key)
  {
    OrderBySeqIsIdentity(db.rows);
  }

  lemma BetweenKeepsSettled(env: Env, db: Db, s: Session, sid: nat, asOf: Time, outcome: Outcome, key: Key)
    requires BetweenPasses(s.pc) && !s.pc.LoadLedger? && key in Observed(db.rows)
    ensures var (db', s') := StepSession(env, FULL, db, s, sid, asOf, outcome); Settled(env, db', s', key)
  {
    var (db', s') := StepSession(env, FULL, db, s, sid, asOf, outcome);
    StepGrows(env, FULL, db, s, sid, asOf, outcome);
    StepLeavesPass(env, FULL, db, s, sid, asOf, outcome);
    ObservedMonotone(db.rows, db'.rows);
  }

  /** Any other step dispatches nothing; what was dispatched stays settled. */
  lemma QuietKeepsSettled(env: Env, start: nat, db: Db, s: Session, sid: nat, asOf: Time, outcome: Outcome, key: Key)
    requires DbOk(env, start, db) && SessionOk(env, start, db, s) && Fresh(env, db, s) && !s.pc.Dispatch?
    requires Settled(env, db, s, key)
    ensures var (db', s') := StepSession(env, FULL, db, s, sid, asOf, outcome); Settled(env, db', s', key)
  {
    var (db', s') := StepSession(env, FULL, db, s, sid, asOf, outcome);
    if s.pc.LoadLedger? {
      LoadKeepsSettled(env, db, s, sid, asOf, outcome, key);
    } else if BetweenPasses(s.pc) {
      BetweenKeepsSettled(env, db, s, sid, asOf, outcome, key);
    } else if s.pc.NextCall? && s.pc.i >= |s.pending| {
      if key in Observed(s.steps) {
        ObservedMonotone(s.steps, db.rows);
      }
    } else if PassIndex(s.pc).Some? {
      PassKeepsSettled(env, start, db, s, sid, asOf, outcome, key);
    } else {
      StepLeavesPass(env, FULL, db, s, sid, asOf, outcome);
    }
  }

  /** Within a pass the index stays or moves on by one; leaving early ends the session. */
  lemma PassMovesOn(env: Env, schema: Schema, db: Db, s: Session, sid: nat, asOf: Time, outcome: Outcome)
    requires PassIndex(s.pc).Some? && PassIndex(s.pc).value < |s.pending| && !s.pc.Dispatch?
    ensures var s' := StepSession(env, schema, db, s, sid, asOf, outcome).1;
            var i := PassIndex(s.pc).value;
            && s'.steps == s.steps && s'.pending == s.pending
            && (PassIndex(s'.pc).None? ==> !BetweenPasses(s'.pc))
            && (PassIndex(s'.pc).Some? ==>
                  || PassIndex(s'.pc).value == i + 1
                  || (PassIndex(s'.pc).value == i && (PastIntent(s.pc) ==> PastIntent(s'.pc))))
  {
  }

  lemma PassKeepsSettled(env: Env, start: nat, db: Db, s: Session, sid: nat, asOf: Time, outcome: Outcome, key: Key)
    requires Settled(env, db, s, key) && !s.pc.Dispatch?
    requires PassIndex(s.pc).Some? && PassIndex(s.pc).value < |s.pending|
    ensures var (db', s') := StepSession(env, FULL, db, s, sid, asOf, outcome); Settled(env, db', s', key)
  {
    PassMovesOn(env, FULL, db, s, sid, asOf, outcome);
  }

  lemma QuietKeepsSent(env: Env, start: nat, db: Db, s: Session, sid: nat, asOf: Time, outcome: Outcome)
    requires DbOk(env, start, db) && SessionOk(env, start, db, s) && Fresh(env, db, s) && SentOk(env, db, s, sid)
    requires !s.pc.Dispatch? && (PassIndex(s.pc).Some? ==> !Repeats(s.pending))
    ensures var (db', s') := StepSession(env, FULL, db, s, sid, asOf, outcome); SentOk(env, db', s', sid)
  {
    var (db', s') := StepSession(env, FULL, db, s, sid, asOf, outcome);
    StepLogs(env, FULL, db, s, sid, asOf, outcome);
    forall key | CountBy(db'.log, sid, key) > 0
      ensures Settled(env, db', s', key)
    {
      QuietKeepsSettled(env, start, db, s, sid, asOf, outcome, key);
    }
    if s'.pc.Dispatch? {
      DispatchStarts(env, start, db, s, sid, asOf, outcome);
      NotYetSent(env, start, db, s, sid, PassIndex(s.pc).value);
    }
  }

  lemma OnlyTwoStepsStart(env: Env, db: Db, s: Session, sid: nat, asOf: Time, outcome: Outcome)
    requires !s.pc.Dispatch? && !s.pc.NextCall? && !s.pc.CommitIntent?
    ensures !StepSession(env, FULL, db, s, sid, asOf, outcome).1.pc.Dispatch?
  {
  }

  lemma IntentStarts(env: Env, db: Db, s: Session, sid: nat, asOf: Time, outcome: Outcome)
    requires s.pc.CommitIntent?
    ensures var s' := StepSession(env, FULL, db, s, sid, asOf, outcome).1;
            s'.pc.Dispatch? ==>
              && s'.pc.i == s.pc.i < |s.pending| && s'.pending == s.pending
              && s'.pc.left == Attempts(env, s.pending[s.pc.i])
  {
  }

  lemma DecisionStarts(env: Env, db: Db, s: Session, i: nat)
    requires i < |s.pending| && s.pending == PendingCalls(env.job, s.steps)
    ensures var pc := Decide(env, db, s, i); pc.Dispatch? ==> pc.i == i && pc.left == Attempts(env, s.pending[i])
  {
    DecideActs(env, db, s, i);
  }

  lemma DispatchStarts(env: Env, start: nat, db: Db, s: Session, sid: nat, asOf: Time, outcome: Outcome)
    requires DbOk(env, start, db) && SessionOk(env, start, db, s) && !s.pc.Dispatch?
    requires StepSession(env, FULL, db, s, sid, asOf, outcome).1.pc.Dispatch?
    ensures var s' := StepSession(env, FULL, db, s, sid, asOf, outcome).1;
            && PassIndex(s.pc) == Some(s'.pc.i) && !PastIntent(s.pc) && s'.pc.i < |s.pending| && s'.pending == s.pending
            && s'.pc.left == Attempts(env, s.pending[s'.pc.i])
  {
    if s.pc.CommitIntent? {
      IntentStarts(env, db, s, sid, asOf, outcome);
    } else if s.pc.NextCall? {
      if s.pc.i < |s.pending| {
        DecisionStarts(env, db, s, s.pc.i);
      }
    } else {
      OnlyTwoStepsStart(env, db, s, sid, asOf, outcome);
    }
  }

  lemma SessionKeepsSent(env: Env, start: nat, w: World, k: nat, asOf: Time, outcome: Outcome)
    requires SentInv(env, start, w) && PlansNeverRepeat(env) && k < |w.sessions|
    ensures var (db', s') := StepSession(env, FULL, w.db, w.sessions[k], k, asOf, outcome); SentOk(env, db', s', k)
  {
    var s := w.sessions[k];
    assert SessionOk(env, start, w.db, s) && Fresh(env, w.db, s);
    if s.pc.Dispatch? {
      DispatchKeepsSent(env, start, w.db, s, k, asOf, outcome);
    } else {
      if PassIndex(s.pc).Some? {
        PendingNeverRepeats(env, start, w, k);
      }
      QuietKeepsSent(env, start, w.db, s, k, asOf, outcome);
    }
  }

  lemma NewSessionSentNothing(env: Env, db: Db, s: Session, k: nat)
    requires forall n :: 0 <= n < |db.log| ==> db.log[n].sid != k
    requires !s.pc.Dispatch?
    ensures SentOk(env, db, s, k)
  {
    forall key ensures CountBy(db.log, k, key) == 0 {
      CountOfNobody(db.log, k, key);
    }
  }

  lemma MovedKeepsSent(env: Env, start: nat, w: World, sid: nat, db': Db, s': Session, outcome: Outcome)
    requires SentInv(env, start, w) && sid < |w.sessions| && Grows(w.db, db')
    requires LogStep(env, w.db, w.sessions[sid], sid, outcome, db') && SentOk(env, db', s', sid)
    ensures var w' := World(db', w.sessions[sid := s']);
            forall k :: 0 <= k < |w'.sessions| ==> SentOk(env, db', w'.sessions[k], k)
  {
    var w' := World(db', w.sessions[sid := s']);
    forall k | 0 <= k < |w'.sessions|
      ensures SentOk(env, db', w'.sessions[k], k)
    {
      if k != sid {
        OthersKeepSent(env, start, w.db, db', w.sessions[k], k);
      }
    }
  }

  lemma IdleKeepsSent(env: Env, start: nat, w: World, w': World)
    requires SentInv(env, start, w) && Idle(w, w')
    ensures forall k :: 0 <= k < |w'.sessions| ==> SentOk(env, w'.db, w'.sessions[k], k)
  {
    forall k | 0 <= k < |w'.sessions|
      ensures SentOk(env, w'.db, w'.sessions[k], k)
    {
      if k >= |w.sessions| {
        NewSessionSentNothing(env, w'.db, w'.sessions[k], k);
      } else {
        assert SentOk(env, w.db, w.sessions[k], k);
      }
    }
  }

  lemma NextKeepsSent(env: Env, start: nat, w: World, a: Action)
    requires SentInv(env, start, w) && PlansNeverRepeat(env)
    ensures SentInv(env, start, Next(env, FULL, w, a))
  {
    NextKeepsFresh(env, start, w, a);
    NextKeepsLog(env, start, w, a);
    NextKeepsInv(env, start, w, a);
    var w' := Next(env, FULL, w, a);
    assert w'.db.rows[..start] == w.db.rows[..start];
    if Moves(w, a) {
      var (db', s') := StepSession(env, FULL, w.db, w.sessions[a.sid], a.sid, a.asOf, a.outcome);
      StepLogs(env, FULL, w.db, w.sessions[a.sid], a.sid, a.asOf, a.outcome);
      SessionKeepsSent(env, start, w, a.sid, a.asOf, a.outcome);
      MovedKeepsSent(env, start, w, a.sid, db', s', a.outcome);
    } else {
      MovesOrIdle(env, FULL, w, a);
      IdleKeepsSent(env, start, w, w');
    }
  }

  lemma {:induction false} SentAlwaysOk(env: Env, now: Time, rows: seq<Row>, schedule: seq<Action>)
    requires StartOk(env.job, rows) && PlansNeverRepeat(env) && RowsNeverRepeat(rows)
    ensures SentInv(env, |rows|, Run(env, FULL, Enqueued(now, rows), schedule))
  {
    if schedule == [] {
      LedgerAlwaysOk(env, now, rows, []);
      assert rows[..|rows|] == rows;
    } else {
      SentAlwaysOk(env, now, rows, schedule[..|schedule| - 1]);
      NextKeepsSent(env, |rows|, Run(env, FULL, Enqueued(now, rows), schedule[..|schedule| - 1]),
                    schedule[|schedule| - 1]);
    }
  }

  // ---------------------------------------------------------------------------
  // Over the whole life of the run
  // ---------------------------------------------------------------------------

  /** The attempts the settings allow. */
  function Limit(env: Env): nat {
    if env.maxAttempts > 0 then env.maxAttempts else 0
  }

  /** No claim of the schedule overran the limit. */
  predicate NoOverruns(env: Env, w: World, schedule: seq<Action>) {
    schedule == [] ||
    (NoOverruns(env, w, schedule[..|schedule| - 1])
     && !Overruns(env, Run(env, FULL, w, schedule[..|schedule| - 1]), schedule[|schedule| - 1]))
  }

  /** Only a compare-and-swap with a stale candidate overruns: when it was read the run had an attempt left. */
  lemma OverrunIsStale(env: Env, w: World, a: Action)
    requires Overruns(env, w, a)
    ensures a.SwapClaim? && a.n < |w.db.looked|
    ensures w.db.looked[a.n].row.attempt < env.maxAttempts <= w.db.run.attempt
  {
  }

  /** A claim is an attempt, and nothing else is. */
  lemma AttemptsCountLeases(env: Env, w: World, a: Action)
    ensures var w' := Next(env, FULL, w, a);
            && w'.db.run.attempt == w.db.run.attempt + (if Leases(env, w, a) then 1 else 0)
            && |w'.sessions| == |w.sessions| + if Leases(env, w, a) then 1 else 0
  {
    if Moves(w, a) {
      StepKeepsAttempt(env, FULL, w.db, w.sessions[a.sid], a.sid, a.asOf, a.outcome);
    }
  }

  lemma {:induction false} SessionsAreAttempts(env: Env, now: Time, rows: seq<Row>, schedule: seq<Action>)
    ensures var w := Run(env, FULL, Enqueued(now, rows), schedule); |w.sessions| == w.db.run.attempt
  {
    if schedule != [] {
      SessionsAreAttempts(env, now, rows, schedule[..|schedule| - 1]);
      AttemptsCountLeases(env, Run(env, FULL, Enqueued(now, rows), schedule[..|schedule| - 1]), schedule[|schedule| - 1]);
    }
  }

  /** The limit on attempts, exactly: a run is claimed more often than it allows if and only if some claim overran it. */
  lemma {:induction false} ClaimsBoundedIff(env: Env, now: Time, rows: seq<Row>, schedule: seq<Action>)
    ensures Run(env, FULL, Enqueued(now, rows), schedule).db.run.attempt <= Limit(env) <==>
              NoOverruns(env, Enqueued(now, rows), schedule)
  {
    if schedule != [] {
      var before, a := schedule[..|schedule| - 1], schedule[|schedule| - 1];
      ClaimsBoundedIff(env, now, rows, before);
      AttemptsCountLeases(env, Run(env, FULL, Enqueued(now, rows), before), a);
    }
  }

  /** Row-locked claims check the attempts of the run they claim. */
  lemma {:induction false} RowLockedClaimsKeepLimit(env: Env, w: World, schedule: seq<Action>)
    requires forall i :: 0 <= i < |schedule| ==> !schedule[i].SwapClaim?
    ensures NoOverruns(env, w, schedule)
  {
    if schedule != [] {
      var before := schedule[..|schedule| - 1];
      assert forall i :: 0 <= i < |before| ==> before[i] == schedule[i];
      RowLockedClaimsKeepLimit(env, w, before);
    }
  }

  lemma StepKeepsAttempt(env: Env, schema: Schema, db: Db, s: Session, sid: nat, asOf: Time, outcome: Outcome)
    ensures StepSession(env, schema, db, s, sid, asOf, outcome).0.run.attempt == db.run.attempt
  {
  }

  function Count(log: seq<Sent>, key: Key): nat {
    if log == [] then 0 else Count(log[..|log| - 1], key) + if log[|log| - 1].key == key then 1 else 0
  }

  /** Dispatches by the first `n` sessions. */
  function CountUpTo(log: seq<Sent>, n: nat, key: Key): nat {
    if n == 0 then 0 else CountUpTo(log, n - 1, key) + CountBy(log, n - 1, key)
  }

  lemma {:induction false} CountUpToAppend(log: seq<Sent>, e: Sent, n: nat, key: Key)
    ensures CountUpTo(log + [e], n, key) == CountUpTo(log, n, key) + if e.sid < n && e.key == key then 1 else 0
  {
    if n > 0 {
      CountUpToAppend(log, e, n - 1, key);
      CountAppend(log, e, n - 1, key);
    }
  }

  lemma {:induction false} CountIsSum(log: seq<Sent>, n: nat, key: Key)
    requires forall i :: 0 <= i < |log| ==> log[i].sid < n
    ensures Count(log, key) == CountUpTo(log, n, key)
  {
    if log == [] {
      EmptyCounts(n, key);
    } else {
      var init, e := log[..|log| - 1], log[|log| - 1];
      assert forall i :: 0 <= i < |init| ==> init[i] == log[i];
      CountIsSum(init, n, key);
      CountUpToAppend(init, e, n, key);
      assert init + [e] == log;
    }
  }

  lemma {:induction false} EmptyCounts(n: nat, key: Key)
    ensures CountUpTo([], n, key) == 0
  {
    if n > 0 {
      EmptyCounts(n - 1, key);
    }
  }

  lemma {:induction false} SumBounded(log: seq<Sent>, n: nat, key: Key, each: nat)
    requires forall k: nat :: k < n ==> CountBy(log, k, key) <= each
    ensures CountUpTo(log, n, key) <= n * each
  {
    if n > 0 {
      SumBounded(log, n - 1, key, each);
      assert n * each == (n - 1) * each + each;
    }
  }

  /** Each attempt dispatches a call at most `retries + 1` times, always under its one key, whatever crashes, stalls and
      overlaps the schedule holds. */
  lemma DispatchesPerAttempt(env: Env, now: Time, rows: seq<Row>, schedule: seq<Action>, call: ToolCall)
    requires StartOk(env.job, rows) && PlansNeverRepeat(env) && RowsNeverRepeat(rows)
    ensures var db := Run(env, FULL, Enqueued(now, rows), schedule).db;
            Count(db.log, KeyOf(env.job, call)) <= db.run.attempt * Attempts(env, call)
  {
    SentAlwaysOk(env, now, rows, schedule);
    SessionsAreAttempts(env, now, rows, schedule);
    CountsAddUp(env, |rows|, Run(env, FULL, Enqueued(now, rows), schedule), call);
  }

  lemma CountsAddUp(env: Env, start: nat, w: World, call: ToolCall)
    requires SentInv(env, start, w)
    ensures Count(w.db.log, KeyOf(env.job, call)) <= |w.sessions| * Attempts(env, call)
  {
    var key := KeyOf(env.job, call);
    CountIsSum(w.db.log, |w.sessions|, key);
    forall k: nat | k < |w.sessions|
      ensures CountBy(w.db.log, k, key) <= Attempts(env, call)
    {
      assert SentOk(env, w.db, w.sessions[k], k);
    }
    SumBounded(w.db.log, |w.sessions|, key, Attempts(env, call));
  }

  /** Over the run's whole life that makes at most `max_attempts * (retries + 1)`, unless a claim overran the limit. */
  lemma DispatchBound(env: Env, now: Time, rows: seq<Row>, schedule: seq<Action>, call: ToolCall)
    requires StartOk(env.job, rows) && PlansNeverRepeat(env) && RowsNeverRepeat(rows)
    requires NoOverruns(env, Enqueued(now, rows), schedule)
    ensures Count(Run(env, FULL, Enqueued(now, rows), schedule).db.log, KeyOf(env.job, call))
         <= Limit(env) * Attempts(env, call)
  {
    DispatchesPerAttempt(env, now, rows, schedule, call);
    ClaimsBoundedIff(env, now, rows, schedule);
    TimesMonotone(Run(env, FULL, Enqueued(now, rows), schedule).db.run.attempt, Limit(env), Attempts(env, call));
  }

  lemma TimesMonotone(m: nat, n: nat, each: nat)
    requires m <= n
    ensures m * each <= n * each
  {
  }
}
