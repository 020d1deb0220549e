/** Where observations come from: a recorded result of a tool is what a dispatch under that very key ended with. */
module Provenance {
  import opened Values
  import opened Models
  import opened Rebuild
  import opened Protocol
  import opened LedgerInvariant
  import opened Dispatches
  import opened CrashTransparency

  /** Some dispatch under this key returned this result, or failed with the error it reports. */
  ghost predicate Produced(log: seq<Sent>, key: Key, result: Json) {
    exists n :: 0 <= n < |log| && log[n].key == key && EndsWith(log[n].outcome, result)
  }

  predicate EndsWith(outcome: Outcome, result: Json) {
    match outcome
    case Returned(value) => result == value
    case Threw(detail, _) => result == ToolErrorResult(detail)
    case Broke(_, _) => false
  }

  /** Why `result` may stand in the ledger for `call`: refused, rejected, unknown, a tool without attempts, or produced
      by a dispatch. */
  ghost predicate Explained(env: Env, log: seq<Sent>, call: ToolCall, result: Json) {
    || (env.policy(call) == Deny && result == POLICY_DENIED)
    || (env.policy(call) == RequireApproval && result == REJECTED)
    || (MayRun(env, call) && call.name !in env.tools && result == UNKNOWN_TOOL)
    || (MayRun(env, call) && call.name in env.tools && env.tools[call.name] + 1 <= 0 && result == Null)
    || (MayRun(env, call) && call.name in env.tools && Produced(log, KeyOf(env.job, call), result))
  }

  ghost predicate RowExplained(env: Env, log: seq<Sent>, row: Row) {
    row.body.Observation? ==>
      row.key.Some? && row.key.value.Call? && row.key.value.run == env.job.id
      && Explained(env, log, row.key.value.call, row.body.result)
  }

  ghost predicate RowsExplained(env: Env, start: nat, db: Db) {
    forall i :: start <= i < |db.rows| ==> RowExplained(env, db.log, db.rows[i])
  }

  ghost predicate SessionExplained(env: Env, db: Db, s: Session) {
    s.pc.CommitObservation? && s.pc.i < |s.pending| ==> Explained(env, db.log, s.pending[s.pc.i], s.pc.result)
  }

  ghost predicate ExplainedInv(env: Env, start: nat, w: World) {
    && Inv(env, start, w) && RowsExplained(env, start, w.db)
    && forall k :: 0 <= k < |w.sessions| ==> SessionExplained(env, w.db, w.sessions[k])
  }

  // ---------------------------------------------------------------------------
  // Preservation
  // ---------------------------------------------------------------------------

  lemma ExplainedMonotone(env: Env, log: seq<Sent>, more: seq<Sent>, call: ToolCall, result: Json)
    requires log <= more && Explained(env, log, call, result)
    ensures Explained(env, more, call, result)
  {
    var key := KeyOf(env.job, call);
    if Produced(log, key, result) {
      var n :| 0 <= n < |log| && log[n].key == key && EndsWith(log[n].outcome, result);
      assert more[n].key == key;
    }
  }

  lemma DecideExplains(env: Env, db: Db, s: Session)
    requires s.pc.NextCall?
    ensures SessionExplained(env, db, s.(pc := Decide(env, db, s, s.pc.i)))
  {
  }

  lemma IntentExplains(env: Env, start: nat, db: Db, s: Session, sid: nat, asOf: Time, outcome: Outcome)
    requires SessionOk(env, start, db, s) && s.pc.CommitIntent?
    ensures var (db', s') := StepSession(env, FULL, db, s, sid, asOf, outcome); SessionExplained(env, db', s')
  {
  }

  lemma DispatchExplains(env: Env, start: nat, db: Db, s: Session, sid: nat, asOf: Time, outcome: Outcome)
    requires SessionOk(env, start, db, s) && s.pc.Dispatch?
    ensures var (db', s') := StepSession(env, FULL, db, s, sid, asOf, outcome); SessionExplained(env, db', s')
  {
    var (db', s') := StepSession(env, FULL, db, s, sid, asOf, outcome);
    if s'.pc.CommitObservation? {
      assert db'.log[|db.log|].key == KeyOf(env.job, s.pending[s.pc.i]);
    }
  }

  lemma StepExplainsSession(env: Env, start: nat, db: Db, s: Session, sid: nat, asOf: Time, outcome: Outcome)
    requires SessionOk(env, start, db, s)
    ensures var (db', s') := StepSession(env, FULL, db, s, sid, asOf, outcome); SessionExplained(env, db', s')
  {
    if s.pc.NextCall? {
      DecideExplains(env, db, s);
    } else if s.pc.CommitIntent? {
      IntentExplains(env, start, db, s, sid, asOf, outcome);
    } else if s.pc.Dispatch? {
      DispatchExplains(env, start, db, s, sid, asOf, outcome);
    } else {
      OnlyThreeStepsObserve(env, db, s, sid, asOf, outcome);
    }
  }

  /** The row a step appends, if it is an observation, records what the session was about to commit. */
  lemma AppendedIsCommitted(env: Env, db: Db, s: Session, sid: nat, asOf: Time, outcome: Outcome)
    ensures var db' := StepSession(env, FULL, db, s, sid, asOf, outcome).0;
            || db'.rows == db.rows
            || (|db'.rows| == |db.rows| + 1 && db.rows <= db'.rows && db'.log == db.log
                && (db'.rows[|db.rows|].body.Observation? ==>
                      && s.pc.CommitObservation? && s.pc.i < |s.pending|
                      && db'.rows[|db.rows|].key == Some(KeyOf(env.job, s.pending[s.pc.i]))
                      && db'.rows[|db.rows|].body.result == s.pc.result))
  {
  }

  lemma StepKeepsRowsExplained(env: Env, start: nat, db: Db, s: Session, sid: nat, asOf: Time, outcome: Outcome)
    requires RowsExplained(env, start, db) && SessionExplained(env, db, s)
    ensures RowsExplained(env, start, StepSession(env, FULL, db, s, sid, asOf, outcome).0)
  {
    var db' := StepSession(env, FULL, db, s, sid, asOf, outcome).0;
    AppendedIsCommitted(env, db, s, sid, asOf, outcome);
    StepLogs(env, FULL, db, s, sid, asOf, outcome);
    RowsStayExplained(env, start, db, db', s);
  }

  lemma RowsStayExplained(env: Env, start: nat, db: Db, db': Db, s: Session)
    requires RowsExplained(env, start, db) && SessionExplained(env, db, s) && db.log <= db'.log
    requires db'.rows == db.rows
             || (|db'.rows| == |db.rows| + 1 && db.rows <= db'.rows
                 && (db'.rows[|db.rows|].body.Observation? ==>
                       && s.pc.CommitObservation? && s.pc.i < |s.pending|
                       && db'.rows[|db.rows|].key == Some(KeyOf(env.job, s.pending[s.pc.i]))
                       && db'.rows[|db.rows|].body.result == s.pc.result))
    ensures RowsExplained(env, start, db')
  {
    forall i | start <= i < |db'.rows|
      ensures RowExplained(env, db'.log, db'.rows[i])
    {
      if db'.rows[i].body.Observation? {
        if i < |db.rows| {
          assert RowExplained(env, db.log, db.rows[i]);
        }
        ExplainedMonotone(env, db.log, db'.log, db'.rows[i].key.value.call, db'.rows[i].body.result);
      }
    }
  }

  lemma MovedStaysExplained(env: Env, start: nat, w: World, sid: nat, db': Db, s': Session)
    requires ExplainedInv(env, start, w) && sid < |w.sessions| && w.db.log <= db'.log
    requires Inv(env, start, World(db', w.sessions[sid := s'])) && RowsExplained(env, start, db')
    requires SessionExplained(env, db', s')
    ensures ExplainedInv(env, start, World(db', w.sessions[sid := s']))
  {
    var sessions := w.sessions[sid := s'];
    forall k | 0 <= k < |sessions|
      ensures SessionExplained(env, db', sessions[k])
    {
      if k != sid {
        var s := w.sessions[k];
        assert SessionExplained(env, w.db, s);
        if s.pc.CommitObservation? && s.pc.i < |s.pending| {
          ExplainedMonotone(env, w.db.log, db'.log, s.pending[s.pc.i], s.pc.result);
        }
      }
    }
  }

  lemma IdleStaysExplained(env: Env, start: nat, w: World, w': World)
    requires ExplainedInv(env, start, w) && Idle(w, w') && Inv(env, start, w')
    ensures ExplainedInv(env, start, w')
  {
    forall k | 0 <= k < |w'.sessions|
      ensures SessionExplained(env, w'.db, w'.sessions[k])
    {
      if k < |w.sessions| {
        assert SessionExplained(env, w.db, w.sessions[k]);
      }
    }
  }

  lemma NextStaysExplained(env: Env, start: nat, w: World, a: Action)
    requires ExplainedInv(env, start, w)
    ensures ExplainedInv(env, start, Next(env, FULL, w, a))
  {
    NextKeepsInv(env, start, w, a);
    if Moves(w, a) {
      var s := w.sessions[a.sid];
      var (db', s') := StepSession(env, FULL, w.db, s, a.sid, a.asOf, a.outcome);
      assert SessionOk(env, start, w.db, s) && SessionExplained(env, w.db, s);
      StepLogs(env, FULL, w.db, s, a.sid, a.asOf, a.outcome);
      StepExplainsSession(env, start, w.db, s, a.sid, a.asOf, a.outcome);
      StepKeepsRowsExplained(env, start, w.db, s, a.sid, a.asOf, a.outcome);
      MovedStaysExplained(env, start, w, a.sid, db', s');
    } else {
      MovesOrIdle(env, FULL, w, a);
      IdleStaysExplained(env, start, w, Next(env, FULL, w, a));
    }
  }

  /** Whatever the schedule, every observation the engine recorded for a tool that runs was produced by a dispatch under
      the key it is recorded under. */
  lemma {:induction false} ObservationsAreProduced(env: Env, now: Time, rows: seq<Row>, schedule: seq<Action>)
    requires StartOk(env.job, rows)
    ensures ExplainedInv(env, |rows|, Run(env, FULL, Enqueued(now, rows), schedule))
  {
    if schedule == [] {
      LedgerAlwaysOk(env, now, rows, []);
    } else {
      ObservationsAreProduced(env, now, rows, schedule[..|schedule| - 1]);
      NextStaysExplained(env, |rows|, Run(env, FULL, Enqueued(now, rows), schedule[..|schedule| - 1]),
                         schedule[|schedule| - 1]);
    }
  }

  /** What is recorded for a call, as it stands in the ledger. */
  lemma ResultsAreAsRecorded(env: Env, now: Time, rows: seq<Row>, schedule: seq<Action>, i: nat)
    requires StartOk(env.job, rows)
    requires var ledger := Run(env, FULL, Enqueued(now, rows), schedule).db.rows;
             |rows| <= i < |ledger| && ledger[i].body.Observation?
    ensures var db := Run(env, FULL, Enqueued(now, rows), schedule).db;
            var key, result := db.rows[i].key, db.rows[i].body.result;
            && key.Some? && key.value.Call? && key.value.run == env.job.id
            && var call := key.value.call;
               match env.policy(call)
               case Invalid(_) => false
               case Deny => result == Obj(map["error" := Str("policy_denied")])
               case Allow => IsAnswer(env, db.log, call, result)
               case RequireApproval =>
                 result == Obj(map["error" := Str("rejected_by_approver")]) || IsAnswer(env, db.log, call, result)
  {
    ObservationsAreProduced(env, now, rows, schedule);
    var db := Run(env, FULL, Enqueued(now, rows), schedule).db;
    assert RowExplained(env, db.log, db.rows[i]);
  }

  /** An unknown tool is answered with an error, a tool without a single attempt with nothing, and any other with what a
      dispatch of it returned or failed with. */
  ghost predicate IsAnswer(env: Env, log: seq<Sent>, call: ToolCall, result: Json) {
    if call.name !in env.tools then result == Obj(map["error" := Str("unknown_tool")])
    else
      || (env.tools[call.name] < 0 && result == Null)
      || exists n :: 0 <= n < |log| && log[n].key == Call(env.job.id, call)
                  && match log[n].outcome
                     case Returned(value) => result == value
                     case Threw(detail, _) => result == Obj(map["error" := Str("tool_error"), "detail" := Str(detail)])
                     case Broke(_, _) => false
  }
}
