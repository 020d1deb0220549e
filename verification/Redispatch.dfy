/** When a call is dispatched more than once. The log of dispatches is no part of the database, so nothing the engine decides
    can depend on it; what keeps a call from being dispatched again is the observation in a session's snapshot. */
module Redispatch {
  import opened Values
  import opened Models
  import opened Rebuild
  import opened Protocol
  import opened LedgerInvariant
  import opened ExactlyOnce
  import opened Dispatches
  import opened Timed
  import opened Shared
  import opened Paths

  // ---------------------------------------------------------------------------
  // Nothing depends on the log
  // ---------------------------------------------------------------------------

  /** The same world, whatever was dispatched in it. */
  predicate SameButLog(w: World, v: World) {
    v == w.(db := w.db.(log := v.db.log))
  }

  lemma StepForgetsLog(env: Env, db: Db, log: seq<Sent>, s: Session, sid: nat, asOf: Time, outcome: Outcome)
    ensures var (db', s') := StepSession(env, FULL, db, s, sid, asOf, outcome);
            var (db2, s2) := StepSession(env, FULL, db.(log := log), s, sid, asOf, outcome);
            s2 == s' && db2 == db'.(log := db2.log)
  {
    if InsertOf(env, s).Some? {
      InsertIsStep(env, FULL, db, s, sid, asOf, outcome);
      InsertIsStep(env, FULL, db.(log := log), s, sid, asOf, outcome);
    } else if s.pc.CommitWait? {
      WaitForgetsLog(env, db, log, s, sid, asOf, outcome);
    } else {
      ReadForgetsLog(env, db, log, s, sid, asOf, outcome);
    }
  }

  lemma WaitForgetsLog(env: Env, db: Db, log: seq<Sent>, s: Session, sid: nat, asOf: Time, outcome: Outcome)
    requires s.pc.CommitWait?
    ensures var (db', s') := StepSession(env, FULL, db, s, sid, asOf, outcome);
            StepSession(env, FULL, db.(log := log), s, sid, asOf, outcome) == (db'.(log := log), s')
  {
  }

  lemma ReadForgetsLog(env: Env, db: Db, log: seq<Sent>, s: Session, sid: nat, asOf: Time, outcome: Outcome)
    requires InsertOf(env, s).None? && !s.pc.CommitWait?
    ensures var (db', s') := StepSession(env, FULL, db, s, sid, asOf, outcome);
            var (db2, s2) := StepSession(env, FULL, db.(log := log), s, sid, asOf, outcome);
            s2 == s' && db2 == db'.(log := db2.log)
  {
  }

  /** Two runs that differ in what was dispatched before go on alike under every schedule: whether a call is dispatched
      never depends on whether it was. */
  lemma {:induction false} NothingDependsOnLog(env: Env, w: World, v: World, schedule: seq<Action>)
    requires SameButLog(w, v)
    ensures SameButLog(Run(env, FULL, w, schedule), Run(env, FULL, v, schedule))
  {
    if schedule != [] {
      var before, a := schedule[..|schedule| - 1], schedule[|schedule| - 1];
      NothingDependsOnLog(env, w, v, before);
      var w', v' := Run(env, FULL, w, before), Run(env, FULL, v, before);
      if Moves(w', a) {
        StepForgetsLog(env, w'.db, v'.db.log, w'.sessions[a.sid], a.sid, a.asOf, a.outcome);
      } else {
        OthersForgetLog(env, w', v', a);
      }
    }
  }

  lemma OthersForgetLog(env: Env, w: World, v: World, a: Action)
    requires SameButLog(w, v) && !Moves(w, a)
    ensures SameButLog(Next(env, FULL, w, a), Next(env, FULL, v, a))
  {
  }

  // ---------------------------------------------------------------------------
  // Which step dispatches
  // ---------------------------------------------------------------------------

  /** The step is a dispatch under this key. */
  predicate DispatchesKey(env: Env, w: World, a: Action, key: Key) {
    && Moves(w, a)
    && var s := w.sessions[a.sid];
       s.pc.Dispatch? && s.pc.i < |s.pending| && s.pc.left > 0 && KeyOf(env.job, s.pending[s.pc.i]) == key
  }

  lemma CountAfterStep(env: Env, w: World, a: Action, key: Key)
    ensures Count(Next(env, FULL, w, a).db.log, key) == Count(w.db.log, key) + if DispatchesKey(env, w, a, key) then 1 else 0
  {
    if Moves(w, a) {
      var s := w.sessions[a.sid];
      StepLogs(env, FULL, w.db, s, a.sid, a.asOf, a.outcome);
      if s.pc.Dispatch? && s.pc.i < |s.pending| && s.pc.left > 0 {
        DispatchDoes(env, w.db, s, a.sid, a.asOf, a.outcome);
        var log' := Next(env, FULL, w, a).db.log;
        assert log'[..|log'| - 1] == w.db.log;
      } else {
        OthersSendNothing(env, w.db, s, a.sid, a.asOf, a.outcome);
      }
    } else {
      MovesOrIdle(env, FULL, w, a);
    }
  }

  lemma OthersSendNothing(env: Env, db: Db, s: Session, sid: nat, asOf: Time, outcome: Outcome)
    requires !(s.pc.Dispatch? && s.pc.i < |s.pending| && s.pc.left > 0)
    ensures StepSession(env, FULL, db, s, sid, asOf, outcome).0.log == db.log
  {
  }

  /** The same session dispatched the call before, and each time the tool failed. */
  predicate IsRetry(env: Env, w: World, a: Action, key: Key) {
    && DispatchesKey(env, w, a, key)
    && (exists n :: 0 <= n < |w.db.log| && w.db.log[n].sid == a.sid && w.db.log[n].key == key)
    && OnlyErrors(w.db.log, a.sid, key)
  }

  /** Whatever session `sid` dispatched under this key ended in a tool error. */
  predicate OnlyErrors(log: seq<Sent>, sid: nat, key: Key) {
    forall n :: 0 <= n < |log| && log[n].sid == sid && log[n].key == key ==> log[n].outcome.Threw?
  }

  /** Another session dispatched it, and the snapshot this one loaded does not hold the observation. */
  predicate IsTakeover(env: Env, w: World, a: Action, key: Key) {
    && DispatchesKey(env, w, a, key) && CountBy(w.db.log, a.sid, key) == 0
    && (exists n :: 0 <= n < |w.db.log| && w.db.log[n].key == key && w.db.log[n].sid != a.sid)
    && key !in Observed(w.sessions[a.sid].steps)
  }

  lemma {:induction false} CountedIsLogged(log: seq<Sent>, key: Key)
    ensures Count(log, key) > 0 <==> exists n :: 0 <= n < |log| && log[n].key == key
  {
    if log != [] {
      var init := log[..|log| - 1];
      CountedIsLogged(init, key);
      if n :| 0 <= n < |init| && init[n].key == key {
        assert log[n].key == key;
      }
      if n :| 0 <= n < |log| && log[n].key == key {
        assert n < |init| ==> init[n].key == key;
      }
    }
  }

  lemma {:induction false} CountByIsLogged(log: seq<Sent>, sid: nat, key: Key)
    ensures CountBy(log, sid, key) > 0 <==> exists n :: 0 <= n < |log| && log[n].key == key && log[n].sid == sid
  {
    if log != [] {
      var init := log[..|log| - 1];
      CountByIsLogged(init, sid, key);
      if n :| 0 <= n < |init| && init[n].key == key && init[n].sid == sid {
        assert log[n].key == key && log[n].sid == sid;
      }
      if n :| 0 <= n < |log| && log[n].key == key && log[n].sid == sid {
        assert n < |init| ==> init[n].key == key && init[n].sid == sid;
      }
    }
  }

  // ---------------------------------------------------------------------------
  // Retries follow errors
  // ---------------------------------------------------------------------------

  /** A session about to dispatch a call has had nothing but errors from it. */
  predicate RetriesOk(env: Env, db: Db, s: Session, sid: nat) {
    s.pc.Dispatch? && s.pc.i < |s.pending| ==> OnlyErrors(db.log, sid, KeyOf(env.job, s.pending[s.pc.i]))
  }

  predicate AllRetriesOk(env: Env, w: World) {
    forall k :: 0 <= k < |w.sessions| ==> RetriesOk(env, w.db, w.sessions[k], k)
  }

  lemma DispatchesAgainOnError(env: Env, db: Db, s: Session, sid: nat, asOf: Time, outcome: Outcome)
    requires s.pc.Dispatch?
    ensures StepSession(env, FULL, db, s, sid, asOf, outcome).1.pc.Dispatch? ==> outcome.Threw?
  {
  }

  lemma StepKeepsRetries(env: Env, start: nat, w: World, a: Action)
    requires SentInv(env, start, w) && PlansNeverRepeat(env) && Moves(w, a) && RetriesOk(env, w.db, w.sessions[a.sid], a.sid)
    ensures var w' := Next(env, FULL, w, a); RetriesOk(env, w'.db, w'.sessions[a.sid], a.sid)
  {
    var s := w.sessions[a.sid];
    var (db', s') := StepSession(env, FULL, w.db, s, a.sid, a.asOf, a.outcome);
    StepLogs(env, FULL, w.db, s, a.sid, a.asOf, a.outcome);
    if s.pc.Dispatch? {
      DispatchesAgainOnError(env, w.db, s, a.sid, a.asOf, a.outcome);
      if s.pc.i < |s.pending| && s.pc.left > 0 {
        DispatchDoes(env, w.db, s, a.sid, a.asOf, a.outcome);
      }
    } else if s'.pc.Dispatch? {
      assert SessionOk(env, start, w.db, s);
      DispatchStarts(env, start, w.db, s, a.sid, a.asOf, a.outcome);
      PendingNeverRepeats(env, start, w, a.sid);
      assert SentOk(env, w.db, s, a.sid);
      NotYetSent(env, start, w.db, s, a.sid, s'.pc.i);
      CountByIsLogged(w.db.log, a.sid, KeyOf(env.job, s'.pending[s'.pc.i]));
    }
  }

  lemma NextKeepsRetries(env: Env, start: nat, w: World, a: Action)
    requires SentInv(env, start, w) && PlansNeverRepeat(env) && AllRetriesOk(env, w)
    ensures AllRetriesOk(env, Next(env, FULL, w, a))
  {
    var w' := Next(env, FULL, w, a);
    if Moves(w, a) {
      StepKeepsRetries(env, start, w, a);
      StepLogs(env, FULL, w.db, w.sessions[a.sid], a.sid, a.asOf, a.outcome);
      assert forall k :: 0 <= k < |w'.sessions| && k != a.sid ==> w'.sessions[k] == w.sessions[k];
    } else {
      MovesOrIdle(env, FULL, w, a);
    }
    forall k | 0 <= k < |w'.sessions|
      ensures RetriesOk(env, w'.db, w'.sessions[k], k)
    {
      if k < |w.sessions| {
        assert RetriesOk(env, w.db, w.sessions[k], k);
      }
    }
  }

  lemma {:induction false} RetriesAlwaysOk(env: Env, now: Time, rows: seq<Row>, schedule: seq<Action>)
    requires StartOk(env.job, rows) && PlansNeverRepeat(env) && RowsNeverRepeat(rows)
    ensures AllRetriesOk(env, Run(env, FULL, Enqueued(now, rows), schedule))
  {
    if schedule != [] {
      var before := schedule[..|schedule| - 1];
      RetriesAlwaysOk(env, now, rows, before);
      SentAlwaysOk(env, now, rows, before);
      NextKeepsRetries(env, |rows|, Run(env, FULL, Enqueued(now, rows), before), schedule[|schedule| - 1]);
    }
  }

  /** A worker dispatches a call again only after the tool failed: of the dispatches of one session under one key, all but
      the last ended in a tool error. */
  lemma {:induction false} RetriesFollowErrors(env: Env, now: Time, rows: seq<Row>, schedule: seq<Action>, n: nat, m: nat)
    requires StartOk(env.job, rows) && PlansNeverRepeat(env) && RowsNeverRepeat(rows)
    requires var log := Run(env, FULL, Enqueued(now, rows), schedule).db.log;
             n < m < |log| && log[n].sid == log[m].sid && log[n].key == log[m].key
    ensures Run(env, FULL, Enqueued(now, rows), schedule).db.log[n].outcome.Threw?
  {
    if schedule != [] {
      var before, a := schedule[..|schedule| - 1], schedule[|schedule| - 1];
      var w := Run(env, FULL, Enqueued(now, rows), before);
      RetriesAlwaysOk(env, now, rows, before);
      if m < |w.db.log| {
        LogOnlyGrows(env, w, a);
        RetriesFollowErrors(env, now, rows, before, n, m);
      } else {
        LastSentByStep(env, w, a);
        assert RetriesOk(env, w.db, w.sessions[a.sid], a.sid);
      }
    }
  }

  lemma LogOnlyGrows(env: Env, w: World, a: Action)
    ensures w.db.log <= Next(env, FULL, w, a).db.log
  {
    if Moves(w, a) {
      StepLogs(env, FULL, w.db, w.sessions[a.sid], a.sid, a.asOf, a.outcome);
    } else {
      MovesOrIdle(env, FULL, w, a);
    }
  }

  /** What is new in the log was dispatched by the session that moved. */
  lemma LastSentByStep(env: Env, w: World, a: Action)
    requires |Next(env, FULL, w, a).db.log| > |w.db.log|
    ensures Moves(w, a) && w.sessions[a.sid].pc.Dispatch? && w.sessions[a.sid].pc.i < |w.sessions[a.sid].pending|
    ensures var log, s := Next(env, FULL, w, a).db.log, w.sessions[a.sid];
            && |log| == |w.db.log| + 1 && log[..|w.db.log|] == w.db.log
            && log[|w.db.log|].sid == a.sid && log[|w.db.log|].key == KeyOf(env.job, s.pending[s.pc.i])
  {
    if Moves(w, a) {
      StepLogs(env, FULL, w.db, w.sessions[a.sid], a.sid, a.asOf, a.outcome);
    } else {
      MovesOrIdle(env, FULL, w, a);
    }
  }

  /** A session dispatches only what its snapshot does not show as observed. */
  lemma SnapshotLacks(env: Env, start: nat, w: World, a: Action, key: Key)
    requires Inv(env, start, w) && DispatchesKey(env, w, a, key)
    ensures key !in Observed(w.sessions[a.sid].steps)
  {
    var s := w.sessions[a.sid];
    assert SessionOk(env, start, w.db, s);
    assert s.pending[s.pc.i] in s.pending;
  }

  /** A dispatch of a call that was dispatched before is a retry or a takeover, and each of them is one. */
  lemma AgainIff(env: Env, start: nat, w: World, a: Action, key: Key)
    requires SentInv(env, start, w) && AllRetriesOk(env, w)
    ensures DispatchesKey(env, w, a, key) && Count(w.db.log, key) > 0 <==> IsRepeat(env, w, a, key)
  {
    CountedIsLogged(w.db.log, key);
    if DispatchesKey(env, w, a, key) {
      SnapshotLacks(env, start, w, a, key);
      CountByIsLogged(w.db.log, a.sid, key);
      assert RetriesOk(env, w.db, w.sessions[a.sid], a.sid);
    }
  }

  predicate IsRepeat(env: Env, w: World, a: Action, key: Key) {
    IsRetry(env, w, a, key) || IsTakeover(env, w, a, key)
  }

  /** Some step of the schedule retries the call or takes it over. */
  predicate SomeoneRepeats(env: Env, start: World, schedule: seq<Action>, key: Key) {
    schedule != [] &&
    (SomeoneRepeats(env, start, schedule[..|schedule| - 1], key)
     || IsRepeat(env, Run(env, FULL, start, schedule[..|schedule| - 1]), schedule[|schedule| - 1], key))
  }

  /** Exactly: a call is dispatched more than once if and only if some session retries it, or takes it over from another
      that dispatched it, with a snapshot that lacks the observation. */
  lemma {:induction false} DispatchedTwiceIff(env: Env, now: Time, rows: seq<Row>, schedule: seq<Action>, call: ToolCall)
    requires StartOk(env.job, rows) && PlansNeverRepeat(env) && RowsNeverRepeat(rows)
    ensures Count(Run(env, FULL, Enqueued(now, rows), schedule).db.log, KeyOf(env.job, call)) > 1 <==>
              SomeoneRepeats(env, Enqueued(now, rows), schedule, KeyOf(env.job, call))
  {
    if schedule != [] {
      var start, key := Enqueued(now, rows), KeyOf(env.job, call);
      var before, a := schedule[..|schedule| - 1], schedule[|schedule| - 1];
      var w := Run(env, FULL, start, before);
      DispatchedTwiceIff(env, now, rows, before, call);
      SentAlwaysOk(env, now, rows, before);
      RetriesAlwaysOk(env, now, rows, before);
      CountAfterStep(env, w, a, key);
      AgainIff(env, |rows|, w, a, key);
    }
  }

  // ---------------------------------------------------------------------------
  // After a crash
  // ---------------------------------------------------------------------------

  /** Nothing that is new in `db'` comes from session `sid`. */
  predicate NothingFrom(sid: nat, db: Db, db': Db) {
    && |db.log| <= |db'.log| && |db.writers| <= |db'.writers|
    && (forall n :: |db.log| <= n < |db'.log| ==> db'.log[n].sid != sid)
    && forall n :: |db.writers| <= n < |db'.writers| ==> db'.writers[n] != sid
  }

  lemma StepSigns(env: Env, db: Db, s: Session, sid: nat, asOf: Time, outcome: Outcome)
    ensures var db' := StepSession(env, FULL, db, s, sid, asOf, outcome).0;
            (db'.writers == db.writers || db'.writers == db.writers + [sid])
            && (s.pc == Stopped ==> StepSession(env, FULL, db, s, sid, asOf, outcome) == (db, s))
  {
  }

  lemma StoppedStaysSilent(env: Env, w: World, sid: nat, a: Action)
    requires sid < |w.sessions| && w.sessions[sid].pc == Stopped
    ensures var w' := Next(env, FULL, w, a);
            sid < |w'.sessions| && w'.sessions[sid].pc == Stopped && NothingFrom(sid, w.db, w'.db)
  {
    if Moves(w, a) {
      StepSigns(env, w.db, w.sessions[a.sid], a.sid, a.asOf, a.outcome);
      StepLogs(env, FULL, w.db, w.sessions[a.sid], a.sid, a.asOf, a.outcome);
    } else {
      MovesOrIdle(env, FULL, w, a);
    }
  }

  lemma NothingFromEither(sid: nat, db: Db, mid: Db, db': Db)
    requires NothingFrom(sid, db, mid) && NothingFrom(sid, mid, db')
    requires mid.log <= db'.log && mid.writers <= db'.writers
    ensures NothingFrom(sid, db, db')
  {
  }

  lemma WritersOnlyGrow(env: Env, w: World, a: Action)
    ensures w.db.writers <= Next(env, FULL, w, a).db.writers
  {
    if Moves(w, a) {
      StepSigns(env, w.db, w.sessions[a.sid], a.sid, a.asOf, a.outcome);
    } else {
      MovesOrIdle(env, FULL, w, a);
    }
  }

  lemma {:induction false} StoppedIsSilent(env: Env, w: World, sid: nat, schedule: seq<Action>)
    requires sid < |w.sessions| && w.sessions[sid].pc == Stopped
    ensures var w' := Run(env, FULL, w, schedule);
            sid < |w'.sessions| && w'.sessions[sid].pc == Stopped && NothingFrom(sid, w.db, w'.db)
  {
    if schedule != [] {
      var before, a := schedule[..|schedule| - 1], schedule[|schedule| - 1];
      var mid := Run(env, FULL, w, before);
      StoppedIsSilent(env, w, sid, before);
      StoppedStaysSilent(env, mid, sid, a);
      LogOnlyGrows(env, mid, a);
      WritersOnlyGrow(env, mid, a);
      NothingFromEither(sid, w.db, mid.db, Next(env, FULL, mid, a).db);
    }
  }

  /** A crash is the end of a session and of nothing else: the tables are as they were, and whatever happens afterwards, no
      row and no dispatch comes from it any more. */
  lemma CrashedIsSilent(env: Env, w: World, sid: nat, schedule: seq<Action>)
    requires sid < |w.sessions|
    ensures Next(env, FULL, w, Crash(sid)).db == w.db
    ensures NothingFrom(sid, w.db, Run(env, FULL, Next(env, FULL, w, Crash(sid)), schedule).db)
  {
    StoppedIsSilent(env, Next(env, FULL, w, Crash(sid)), sid, schedule);
  }

  // ---------------------------------------------------------------------------
  // Under timely leases
  // ---------------------------------------------------------------------------

  /** Every dispatch came before the observation of its call. */
  ghost predicate LogUnobserved(db: Db) {
    forall n :: 0 <= n < |db.log| ==> db.log[n].at <= |db.rows| && db.log[n].key !in Observed(db.rows[..db.log[n].at])
  }

  lemma TimelyDispatchIsUnobserved(env: Env, start: nat, w: World, a: Action, key: Key)
    requires TimedInv(env, start, w) && Timely(env, w, a) && SentInv(env, start, w) && PlansNeverRepeat(env)
    requires DispatchesKey(env, w, a, key)
    ensures key !in Observed(w.db.rows)
  {
    var s := w.sessions[a.sid];
    OnlyLatestActs(env, start, w, a);
    OwnerIsCurrent(env, start, w.db, s);
    PendingNeverRepeats(env, start, w, a.sid);
    assert SessionOk(env, start, w.db, s) && Fresh(env, w.db, s);
    if key in Observed(w.db.rows) {
      MemberRepeats(s.pending, s.pc.i);
    }
  }

  /** What is dispatched is not observed at the time. */
  predicate SendsUnobserved(db: Db, log': seq<Sent>) {
    || log' == db.log
    || (db.log <= log' && |log'| == |db.log| + 1 && log'[|db.log|].at == |db.rows|
        && log'[|db.log|].key !in Observed(db.rows))
  }

  lemma AppendKeepsUnobserved(db: Db, db': Db)
    requires LogUnobserved(db) && db.rows <= db'.rows && SendsUnobserved(db, db'.log)
    ensures LogUnobserved(db')
  {
    forall n | 0 <= n < |db'.log|
      ensures db'.log[n].at <= |db'.rows| && db'.log[n].key !in Observed(db'.rows[..db'.log[n].at])
    {
      assert db'.rows[..|db.rows|] == db.rows;
      if n < |db.log| {
        assert db'.log[n] == db.log[n];
        assert db'.rows[..db.log[n].at] == db.rows[..db.log[n].at];
      }
    }
  }

  /** Nothing but a dispatch changes the log. */
  predicate LogsOnlyDispatches(env: Env, w: World, a: Action, log': seq<Sent>) {
    || log' == w.db.log
    || (w.db.log <= log' && |log'| == |w.db.log| + 1 && log'[|w.db.log|].at == |w.db.rows|
        && DispatchesKey(env, w, a, log'[|w.db.log|].key))
  }

  lemma NextLogsOnlyDispatches(env: Env, w: World, a: Action)
    ensures LogsOnlyDispatches(env, w, a, Next(env, FULL, w, a).db.log)
  {
    if !Moves(w, a) {
      MovesOrIdle(env, FULL, w, a);
    } else {
      var s := w.sessions[a.sid];
      if s.pc.Dispatch? && s.pc.i < |s.pending| && s.pc.left > 0 {
        DispatchDoes(env, w.db, s, a.sid, a.asOf, a.outcome);
      } else {
        OthersSendNothing(env, w.db, s, a.sid, a.asOf, a.outcome);
      }
    }
  }

  lemma SentWasUnobserved(env: Env, start: nat, w: World, a: Action, log': seq<Sent>)
    requires TimedInv(env, start, w) && Timely(env, w, a) && SentInv(env, start, w) && PlansNeverRepeat(env)
    requires LogsOnlyDispatches(env, w, a, log')
    ensures SendsUnobserved(w.db, log')
  {
    if log' != w.db.log {
      TimelyDispatchIsUnobserved(env, start, w, a, log'[|w.db.log|].key);
    }
  }

  /** As long as sessions act within their leases, a call whose observation is on the ledger is never dispatched again. */
  lemma {:induction false} NeverAfterObservation(env: Env, now: Time, rows: seq<Row>, schedule: seq<Action>)
    requires StartOk(env.job, rows) && PlansNeverRepeat(env) && RowsNeverRepeat(rows)
    requires AllTimely(env, Enqueued(now, rows), schedule)
    ensures LogUnobserved(Run(env, FULL, Enqueued(now, rows), schedule).db)
  {
    if schedule != [] {
      var before := schedule[..|schedule| - 1];
      NeverAfterObservation(env, now, rows, before);
      AlwaysTimed(env, now, rows, before);
      SentAlwaysOk(env, now, rows, before);
      var w, db' := Run(env, FULL, Enqueued(now, rows), before), Run(env, FULL, Enqueued(now, rows), schedule).db;
      NextKeepsInv(env, |rows|, w, schedule[|schedule| - 1]);
      NextLogsOnlyDispatches(env, w, schedule[|schedule| - 1]);
      SentWasUnobserved(env, |rows|, w, schedule[|schedule| - 1], db'.log);
      AppendKeepsUnobserved(w.db, db');
    }
  }

  // ---------------------------------------------------------------------------
  // How often, at most: the bound is reached
  // ---------------------------------------------------------------------------

  /** The call is the first the run owes, and nothing keeps an attempt from dispatching it. */
  predicate FirstUp(env: Env, rows: seq<Row>, call: ToolCall) {
    && PendingCalls(env.job, rows) != [] && PendingCalls(env.job, rows)[0] == call
    && env.policy(call) == Allow && Attempts(env, call) > 0
    && env.agent.Some? && PlanCount(rows) < env.maxSteps && env.leaseSeconds >= 0
  }

  /** After `n` attempts that each dispatched the call as often as they may and then died. */
  ghost predicate Abandoned(env: Env, w: World, call: ToolCall, n: nat) {
    && FirstUp(env, w.db.rows, call) && GapFree(w.db.rows) && w.db.run.cursor == |w.db.rows|
    && w.db.run.attempt == n && Runnable(w.db.run, w.db.now) && !w.db.run.cancel
    && Count(w.db.log, KeyOf(env.job, call)) == n * Attempts(env, call)
  }

  /** The tool fails as often as it is retried. */
  lemma {:induction false} SendsAll(env: Env, start: World, schedule: seq<Action>, w: World, call: ToolCall)
    returns (w': World, schedule': seq<Action>)
    requires Leads(env, start, schedule, w, IN_TIME) && w.sessions != []
    requires var s := w.sessions[|w.sessions| - 1];
             && s.pc.Dispatch? && s.pc.left > 0 && s.pc.i < |s.pending| && s.pending[s.pc.i] == call
             && w.db.now <= s.lease
    ensures Leads(env, start, schedule', w', IN_TIME)
    ensures w'.db == w.db.(log := w'.db.log) && |w'.sessions| == |w.sessions|
    ensures Count(w'.db.log, KeyOf(env.job, call))
         == Count(w.db.log, KeyOf(env.job, call)) + w.sessions[|w.sessions| - 1].pc.left
    decreases w.sessions[|w.sessions| - 1].pc.left
  {
    var s := w.sessions[|w.sessions| - 1];
    w', schedule' := Sends(env, start, schedule, w, IN_TIME, Threw("", false));
    assert w'.db.log[..|w.db.log|] == w.db.log;
    if s.pc.left > 1 {
      w', schedule' := SendsAll(env, start, schedule', w', call);
    }
  }

  lemma IntentKeepsFirstUp(env: Env, rows: seq<Row>, row: Row, call: ToolCall)
    requires FirstUp(env, rows, call) && row.body.IntentStep?
    ensures FirstUp(env, rows + [row], call)
  {
    FoldAppend(env.job, rows, row);
  }

  /** A worker claims the run and reads the ledger. */
  lemma AttemptReads(env: Env, start: World, schedule: seq<Action>, w: World, call: ToolCall, n: nat)
    returns (w': World, schedule': seq<Action>)
    requires Leads(env, start, schedule, w, IN_TIME) && Abandoned(env, w, call, n) && n < env.maxAttempts
    ensures Leads(env, start, schedule', w', IN_TIME) && AtCall(w', 0)
    ensures w'.sessions[|w'.sessions| - 1].pending == PendingCalls(env.job, w.db.rows)
    ensures w'.sessions[|w'.sessions| - 1].steps == w.db.rows
    ensures w'.db == w.db.(run := w'.db.run) && w'.db.run.attempt == n + 1 && !w'.db.run.cancel
    ensures w'.db.run.status == Running && w'.db.run.expiry == Some(w.db.now + env.leaseSeconds)
  {
    ClaimLeases(env, w, "worker");
    var w1, s1 := LoopStarts(env, start, schedule, w, Claim("worker", w.db.now), "worker", IN_TIME);
    w', schedule' := PassStarts(env, start, s1, w1, IN_TIME);
  }

  /** Its intent is on record, and it dispatches the call as often as it may. */
  lemma AttemptSends(env: Env, start: World, schedule: seq<Action>, w: World, call: ToolCall)
    returns (w': World, schedule': seq<Action>)
    requires Leads(env, start, schedule, w, IN_TIME) && AtCall(w, 0) && FirstUp(env, w.db.rows, call)
    requires w.sessions[|w.sessions| - 1].pending == PendingCalls(env.job, w.db.rows)
    requires w.sessions[|w.sessions| - 1].steps == w.db.rows
    ensures Leads(env, start, schedule', w', IN_TIME) && w'.sessions != []
    ensures FirstUp(env, w'.db.rows, call) && GapFree(w'.db.rows)
    ensures w'.db.run == w.db.run.(cursor := |w'.db.rows|) && w'.db.now == w.db.now
    ensures Count(w'.db.log, KeyOf(env.job, call)) == Count(w.db.log, KeyOf(env.job, call)) + Attempts(env, call)
  {
    var s := w.sessions[|w.sessions| - 1];
    DecideActs(env, w.db, s, 0);
    var w1, s1 := GetsToDispatch(env, start, schedule, w, IN_TIME, 0);
    if w1.db.rows != w.db.rows {
      IntentKeepsFirstUp(env, w.db.rows, w1.db.rows[|w.db.rows|], call);
    }
    w', schedule' := SendsAll(env, start, s1, w1, call);
  }

  lemma AttemptDies(env: Env, start: World, schedule: seq<Action>, w: World, call: ToolCall, n: nat)
    returns (w': World, schedule': seq<Action>)
    requires Leads(env, start, schedule, w, IN_TIME) && Abandoned(env, w, call, n) && n < env.maxAttempts
    ensures Leads(env, start, schedule', w', IN_TIME) && Abandoned(env, w', call, n + 1)
  {
    var w1, s1 := AttemptReads(env, start, schedule, w, call, n);
    var w2, s2 := AttemptSends(env, start, s1, w1, call);
    w', schedule' := DiesAndExpires(env, start, s2, w2);
    OneMore(n, Attempts(env, call));
  }

  lemma OneMore(n: nat, each: nat)
    ensures (n + 1) * each == n * each + each
  {
  }

  /** The worker dies, and its lease runs out. */
  lemma DiesAndExpires(env: Env, start: World, schedule: seq<Action>, w: World)
    returns (w': World, schedule': seq<Action>)
    requires Leads(env, start, schedule, w, IN_TIME) && w.sessions != [] && env.leaseSeconds >= 0
    requires w.db.run.status == Running && w.db.run.expiry == Some(w.db.now + env.leaseSeconds)
    ensures Leads(env, start, schedule', w', IN_TIME) && Runnable(w'.db.run, w'.db.now)
    ensures w'.db == w.db.(now := w'.db.now)
  {
    var w1, s1 := Goes(env, start, schedule, w, IN_TIME, Crash(|w.sessions| - 1));
    w', schedule' := Goes(env, start, s1, w1, IN_TIME, Tick(env.leaseSeconds + 1));
  }

  lemma {:induction false} AttemptsDie(env: Env, now: Time, rows: seq<Row>, call: ToolCall, n: nat)
    returns (w: World, schedule: seq<Action>)
    requires StartOk(env.job, rows) && FirstUp(env, rows, call) && n <= Limit(env)
    ensures Leads(env, Enqueued(now, rows), schedule, w, IN_TIME) && Abandoned(env, w, call, n)
  {
    if n == 0 {
      w, schedule := Enqueued(now, rows), [];
      LeadsNowhere(env, w, IN_TIME);
    } else {
      w, schedule := AttemptsDie(env, now, rows, call, n - 1);
      w, schedule := AttemptDies(env, Enqueued(now, rows), schedule, w, call, n - 1);
    }
  }

  /** The bound on dispatches is exact: a call that is first in line is dispatched `max_attempts * (retries + 1)` times in
      some schedule, every lease kept and no claim over the limit. */
  lemma BoundIsReached(env: Env, now: Time, rows: seq<Row>, call: ToolCall) returns (schedule: seq<Action>)
    requires StartOk(env.job, rows) && FirstUp(env, rows, call)
    ensures AllTimely(env, Enqueued(now, rows), schedule) && NoOverruns(env, Enqueued(now, rows), schedule)
    ensures Count(Run(env, FULL, Enqueued(now, rows), schedule).db.log, KeyOf(env.job, call))
         == Limit(env) * Attempts(env, call)
  {
    var w;
    w, schedule := AttemptsDie(env, now, rows, call, Limit(env));
    LeadsIsRun(env, Enqueued(now, rows), schedule, w, IN_TIME);
    ClaimsBoundedIff(env, now, rows, schedule);
  }

  /** No schedule that keeps the limit on attempts, and leases too if that is asked, dispatches the call twice. */
  ghost predicate AtMostOnce(env: Env, now: Time, rows: seq<Row>, call: ToolCall, timely: bool) {
    forall schedule :: NoOverruns(env, Enqueued(now, rows), schedule)
                       && (timely ==> AllTimely(env, Enqueued(now, rows), schedule)) ==>
      Count(Run(env, FULL, Enqueued(now, rows), schedule).db.log, KeyOf(env.job, call)) <= 1
  }

  /** Exactly: a call first in line is dispatched at most once, come what may, if and only if the settings allow the run
      no second attempt and the tool no retry. Keeping every lease does not help. */
  lemma AtMostOnceIff(env: Env, now: Time, rows: seq<Row>, call: ToolCall, timely: bool)
    requires StartOk(env.job, rows) && PlansNeverRepeat(env) && RowsNeverRepeat(rows) && FirstUp(env, rows, call)
    ensures AtMostOnce(env, now, rows, call, timely) <==>
              env.maxAttempts <= 0 || (env.maxAttempts == 1 && env.tools[call.name] == 0)
  {
    if Limit(env) * Attempts(env, call) <= 1 {
      forall schedule | NoOverruns(env, Enqueued(now, rows), schedule)
        ensures Count(Run(env, FULL, Enqueued(now, rows), schedule).db.log, KeyOf(env.job, call)) <= 1
      {
        DispatchBound(env, now, rows, schedule, call);
      }
    } else {
      var schedule := BoundIsReached(env, now, rows, call);
    }
    ProductAtMostOne(Limit(env), Attempts(env, call));
  }

  lemma ProductAtMostOne(m: nat, n: nat)
    requires n > 0
    ensures m * n <= 1 <==> m == 0 || (m == 1 && n == 1)
  {
    if m >= 2 {
      TimesMonotone(2, m, n);
    } else if m == 1 {
      assert m * n == n;
    }
  }
}
