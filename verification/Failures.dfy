/** Why runs fail: every error step the engine records has a cause, and says which. */
module Failures {
  import opened Values
  import opened Models
  import opened Rebuild
  import opened Protocol
  import opened LedgerInvariant
  import opened Cancellation
  import opened Dispatches
  import opened Timed

  /** What may end a run with this error after these rows and dispatches: an unknown agent, a cancellation, the plan
      limit, a model that raised, a plan over the cap, a policy that answered nonsense about a call of the last plan, or a
      dispatch of such a call that broke. */
  ghost predicate Caused(env: Env, cancelled: bool, log: seq<Sent>, before: seq<Row>, class_: ErrorClass, detail: string) {
    match class_
    case Cancelled => cancelled && detail == "cancelled by request"
    case Budget =>
      detail == "budget cap exceeded (model)" && AsksModel(env, before) && env.job.cap.Some?
      && exists plan :: env.agent.value(StateOf(env.job, before)) == Planned(plan)
                     && TotalCost(before) + (if plan.cost > 0 then plan.cost else 0) > env.job.cap.value
    case Infra =>
      || (env.agent.None? && detail == "unknown agent_ref: " + env.job.agentRef)
      || (PlanCount(before) >= env.maxSteps && detail == "max steps exceeded")
      || (AsksModel(env, before)
          && exists message :: env.agent.value(StateOf(env.job, before)) == Raised(message) && detail == "engine error: " + message)
      || (exists call, message ::
            call in LastCalls(before) && env.policy(call) == Invalid(message) && detail == "engine error: " + message)
      || BrokeOn(log, before, detail)
  }

  /** Some dispatch of a call of the last plan raised what is no tool error, with this message. */
  ghost predicate BrokeOn(log: seq<Sent>, before: seq<Row>, detail: string) {
    exists n :: 0 <= n < |log| && log[n].outcome.Broke? && log[n].call in LastCalls(before)
             && detail == "engine error: " + log[n].outcome.message
  }

  /** After these rows it is the model's turn. */
  predicate AsksModel(env: Env, before: seq<Row>) {
    env.agent.Some? && PendingCalls(env.job, before) == [] && PlanCount(before) < env.maxSteps
  }

  ghost predicate RowCaused(env: Env, cancelled: bool, log: seq<Sent>, before: seq<Row>, row: Row) {
    row.body.ErrorStep? ==> Caused(env, cancelled, log, before, row.body.class_, row.body.detail)
  }

  ghost predicate RowsCaused(env: Env, start: nat, db: Db) {
    forall i {:trigger RowCaused(env, db.run.cancel, db.log, db.rows[..i], db.rows[i])} :: start <= i < |db.rows| ==>
      RowCaused(env, db.run.cancel, db.log, db.rows[..i], db.rows[i])
  }

  ghost predicate SessionCaused(env: Env, db: Db, s: Session) {
    s.pc.CommitError? && Current(db, s) ==> Caused(env, db.run.cancel, db.log, db.rows, s.pc.class_, s.pc.detail)
  }

  ghost predicate CausedInv(env: Env, start: nat, w: World) {
    && Inv(env, start, w) && RowsCaused(env, start, w.db)
    && forall k :: 0 <= k < |w.sessions| ==> SessionCaused(env, w.db, w.sessions[k])
  }

  // ---------------------------------------------------------------------------
  // Preservation
  // ---------------------------------------------------------------------------

  /** A cause stays one: cancellations are not taken back, and dispatches not undone. */
  lemma CausedLater(env: Env, before: seq<Row>, class_: ErrorClass, detail: string,
                    was: bool, log: seq<Sent>, now: bool, more: seq<Sent>)
    requires Caused(env, was, log, before, class_, detail) && (was ==> now) && log <= more
    ensures Caused(env, now, more, before, class_, detail)
  {
    if BrokeOn(log, before, detail) {
      var n :| 0 <= n < |log| && log[n].outcome.Broke? && log[n].call in LastCalls(before)
            && detail == "engine error: " + log[n].outcome.message;
      assert more[n] == log[n];
    }
  }

  lemma RowCausedLater(env: Env, before: seq<Row>, row: Row, was: bool, log: seq<Sent>, now: bool, more: seq<Sent>)
    requires RowCaused(env, was, log, before, row) && (was ==> now) && log <= more
    ensures RowCaused(env, now, more, before, row)
  {
    if row.body.ErrorStep? {
      CausedLater(env, before, row.body.class_, row.body.detail, was, log, now, more);
    }
  }

  /** Where error steps come from. */
  lemma OnlyFiveStepsFail(env: Env, db: Db, s: Session, sid: nat, asOf: Time, outcome: Outcome)
    requires !s.pc.Loaded? && !s.pc.CheckCancel? && !s.pc.LoadLedger? && !s.pc.NextCall? && !s.pc.Dispatch?
    ensures !StepSession(env, FULL, db, s, sid, asOf, outcome).1.pc.CommitError?
  {
  }

  lemma AfterLoadIsCaused(env: Env, cancelled: bool, log: seq<Sent>, rows: seq<Row>)
    requires env.agent.Some?
    ensures var pc := AfterLoad(env, rows, PendingCalls(env.job, rows));
            pc.CommitError? ==> Caused(env, cancelled, log, rows, pc.class_, pc.detail)
  {
  }

  lemma LoadIsCaused(env: Env, start: nat, db: Db, s: Session, sid: nat, asOf: Time, outcome: Outcome)
    requires DbOk(env, start, db) && SessionOk(env, start, db, s) && s.pc.LoadLedger?
    ensures var s' := StepSession(env, FULL, db, s, sid, asOf, outcome).1;
            s'.pc.CommitError? ==> Caused(env, db.run.cancel, db.log, db.rows, s'.pc.class_, s'.pc.detail)
  {
    OrderBySeqIsIdentity(db.rows);
    AfterLoadIsCaused(env, db.run.cancel, db.log, db.rows);
  }

  /** A decision fails only on what the policy answers. */
  lemma DecideFails(env: Env, db: Db, s: Session, i: nat)
    ensures var pc := Decide(env, db, s, i);
            pc.CommitError? ==>
              && i < |s.pending| && pc.class_ == Infra
              && exists message :: env.policy(s.pending[i]) == Invalid(message) && pc.detail == "engine error: " + message
  {
  }

  lemma DecideIsCaused(env: Env, start: nat, db: Db, s: Session)
    requires SessionOk(env, start, db, s) && s.pc.NextCall? && Current(db, s)
    ensures var pc := Decide(env, db, s, s.pc.i);
            pc.CommitError? ==> Caused(env, db.run.cancel, db.log, db.rows, pc.class_, pc.detail)
  {
    DecideFails(env, db, s, s.pc.i);
    if s.pc.i < |s.pending| {
      HeadOfPass(env, db, s, s.pc.i);
    }
  }

  lemma DispatchIsCaused(env: Env, start: nat, db: Db, s: Session, sid: nat, asOf: Time, outcome: Outcome)
    requires SessionOk(env, start, db, s) && s.pc.Dispatch? && Current(db, s)
    ensures var (db', s') := StepSession(env, FULL, db, s, sid, asOf, outcome);
            && db'.rows == db.rows && db'.run == db.run
            && (s'.pc.CommitError? ==> Caused(env, db.run.cancel, db'.log, db.rows, s'.pc.class_, s'.pc.detail))
  {
    var (db', s') := StepSession(env, FULL, db, s, sid, asOf, outcome);
    HeadOfPass(env, db, s, s.pc.i);
    if s'.pc.CommitError? {
      assert db'.log[|db.log|].outcome == outcome && db'.log[|db.log|].call == s.pending[s.pc.i];
    }
  }

  lemma StepIsCaused(env: Env, start: nat, db: Db, s: Session, sid: nat, asOf: Time, outcome: Outcome)
    requires DbOk(env, start, db) && SessionOk(env, start, db, s)
    ensures var (db', s') := StepSession(env, FULL, db, s, sid, asOf, outcome);
            s'.pc.CommitError? && Current(db', s') ==>
              Caused(env, db'.run.cancel, db'.log, db'.rows, s'.pc.class_, s'.pc.detail)
  {
    if s.pc.LoadLedger? {
      LoadIsCaused(env, start, db, s, sid, asOf, outcome);
    } else if s.pc.NextCall? {
      if Current(db, s) {
        DecideIsCaused(env, start, db, s);
      }
    } else if s.pc.Dispatch? {
      if Current(db, s) {
        DispatchIsCaused(env, start, db, s, sid, asOf, outcome);
      }
    } else if !s.pc.Loaded? && !s.pc.CheckCancel? {
      OnlyFiveStepsFail(env, db, s, sid, asOf, outcome);
    }
  }

  /** The row a step appends, if it is an error, is the one the session was about to commit. */
  lemma AppendedErrorIsCommitted(env: Env, db: Db, s: Session, sid: nat, asOf: Time, outcome: Outcome)
    ensures var db' := StepSession(env, FULL, db, s, sid, asOf, outcome).0;
            || db'.rows == db.rows
            || (|db'.rows| == |db.rows| + 1 && db.rows <= db'.rows
                && (db'.rows[|db.rows|].body.ErrorStep? ==>
                      && s.pc.CommitError? && db'.rows[|db.rows|].body == ErrorStep(s.pc.class_, s.pc.detail)
                      && SeqFree(db.rows, s.local.cursor + 1)))
  {
  }

  lemma StepKeepsRowsCaused(env: Env, start: nat, db: Db, s: Session, sid: nat, asOf: Time, outcome: Outcome)
    requires DbOk(env, start, db) && SessionOk(env, start, db, s) && RowsCaused(env, start, db) && SessionCaused(env, db, s)
    ensures RowsCaused(env, start, StepSession(env, FULL, db, s, sid, asOf, outcome).0)
  {
    var db' := StepSession(env, FULL, db, s, sid, asOf, outcome).0;
    AppendedErrorIsCommitted(env, db, s, sid, asOf, outcome);
    CancelStays(env, db, s, sid, asOf, outcome);
    SeqFreeIsEnd(db.rows, s.local.cursor);
    StepLogs(env, FULL, db, s, sid, asOf, outcome);
    CausedAppend(env, start, db, db', s);
  }

  lemma CausedAppend(env: Env, start: nat, db: Db, db': Db, s: Session)
    requires start <= |db.rows| && RowsCaused(env, start, db) && SessionCaused(env, db, s) && db'.run.cancel == db.run.cancel
    requires db.log <= db'.log
    requires || db'.rows == db.rows
             || (|db'.rows| == |db.rows| + 1 && db.rows <= db'.rows
                 && (db'.rows[|db.rows|].body.ErrorStep? ==>
                       && s.pc.CommitError? && db'.rows[|db.rows|].body == ErrorStep(s.pc.class_, s.pc.detail)
                       && Current(db, s)))
    ensures RowsCaused(env, start, db')
  {
    forall i | start <= i < |db'.rows|
      ensures RowCaused(env, db'.run.cancel, db'.log, db'.rows[..i], db'.rows[i])
    {
      assert db'.rows[..i] == db.rows[..i];
      if i < |db.rows| {
        assert RowCaused(env, db.run.cancel, db.log, db.rows[..i], db.rows[i]);
      } else {
        assert db.rows[..i] == db.rows;
      }
      RowCausedLater(env, db.rows[..i], db'.rows[i], db.run.cancel, db.log, db'.run.cancel, db'.log);
    }
  }

  lemma OthersStayCaused(env: Env, start: nat, db: Db, db': Db, s: Session)
    requires SessionOk(env, start, db, s) && SessionCaused(env, db, s) && Grows(db, db')
    requires db'.run.cancel == db.run.cancel && db.log <= db'.log
    ensures SessionCaused(env, db', s)
  {
    if s.pc.CommitError? && Current(db', s) {
      CausedLater(env, db.rows, s.pc.class_, s.pc.detail, db.run.cancel, db.log, db'.run.cancel, db'.log);
    }
  }

  lemma MovedStaysCaused(env: Env, start: nat, w: World, sid: nat, db': Db, s': Session)
    requires CausedInv(env, start, w) && sid < |w.sessions| && Grows(w.db, db') && db'.run.cancel == w.db.run.cancel
    requires w.db.log <= db'.log
    requires Inv(env, start, World(db', w.sessions[sid := s'])) && RowsCaused(env, start, db') && SessionCaused(env, db', s')
    ensures CausedInv(env, start, World(db', w.sessions[sid := s']))
  {
    var sessions := w.sessions[sid := s'];
    forall k | 0 <= k < |sessions|
      ensures SessionCaused(env, db', sessions[k])
    {
      if k != sid {
        OthersStayCaused(env, start, w.db, db', w.sessions[k]);
      }
    }
  }

  lemma IdleStaysCaused(env: Env, start: nat, w: World, w': World)
    requires CausedInv(env, start, w) && Idle(w, w') && Inv(env, start, w') && (w.db.run.cancel ==> w'.db.run.cancel)
    ensures CausedInv(env, start, w')
  {
    forall i | start <= i < |w'.db.rows|
      ensures RowCaused(env, w'.db.run.cancel, w'.db.log, w'.db.rows[..i], w'.db.rows[i])
    {
      assert RowCaused(env, w.db.run.cancel, w.db.log, w.db.rows[..i], w.db.rows[i]);
      RowCausedLater(env, w.db.rows[..i], w.db.rows[i], w.db.run.cancel, w.db.log, w'.db.run.cancel, w'.db.log);
    }
    forall k | 0 <= k < |w'.sessions|
      ensures SessionCaused(env, w'.db, w'.sessions[k])
    {
      if k < |w.sessions| && !w'.sessions[k].pc.Stopped? {
        assert SessionCaused(env, w.db, w.sessions[k]) && SessionOk(env, start, w.db, w.sessions[k]);
        if w.sessions[k].pc.CommitError? && Current(w.db, w.sessions[k]) {
          CausedLater(env, w.db.rows, w.sessions[k].pc.class_, w.sessions[k].pc.detail,
                      w.db.run.cancel, w.db.log, w'.db.run.cancel, w'.db.log);
        }
      }
    }
  }

  lemma IdleKeepsCancel(env: Env, w: World, a: Action)
    requires !Moves(w, a)
    ensures w.db.run.cancel ==> Next(env, FULL, w, a).db.run.cancel
  {
  }

  lemma NextStaysCaused(env: Env, start: nat, w: World, a: Action)
    requires CausedInv(env, start, w)
    ensures CausedInv(env, start, Next(env, FULL, w, a))
  {
    NextKeepsInv(env, start, w, a);
    if Moves(w, a) {
      var s := w.sessions[a.sid];
      var (db', s') := StepSession(env, FULL, w.db, s, a.sid, a.asOf, a.outcome);
      assert SessionOk(env, start, w.db, s) && SessionCaused(env, w.db, s);
      CancelStays(env, w.db, s, a.sid, a.asOf, a.outcome);
      StepIsCaused(env, start, w.db, s, a.sid, a.asOf, a.outcome);
      StepKeepsRowsCaused(env, start, w.db, s, a.sid, a.asOf, a.outcome);
      StepLogs(env, FULL, w.db, s, a.sid, a.asOf, a.outcome);
      MovedStaysCaused(env, start, w, a.sid, db', s');
    } else {
      MovesOrIdle(env, FULL, w, a);
      IdleKeepsCancel(env, w, a);
      IdleStaysCaused(env, start, w, Next(env, FULL, w, a));
    }
  }

  /** No run fails without a cause: every error step any schedule records tells why the run could not go on from exactly
      the rows before it. */
  lemma {:induction false} ErrorsAreCaused(env: Env, now: Time, rows: seq<Row>, schedule: seq<Action>)
    requires StartOk(env.job, rows)
    ensures CausedInv(env, |rows|, Run(env, FULL, Enqueued(now, rows), schedule))
  {
    if schedule == [] {
      LedgerAlwaysOk(env, now, rows, []);
    } else {
      ErrorsAreCaused(env, now, rows, schedule[..|schedule| - 1]);
      NextStaysCaused(env, |rows|, Run(env, FULL, Enqueued(now, rows), schedule[..|schedule| - 1]),
                      schedule[|schedule| - 1]);
    }
  }

  /** The row of a failed run names a cause that follows from its ledger without the last step. */
  ghost predicate FailureIsCaused(env: Env, db: Db) {
    && db.rows != [] && db.run.error.Some?
    && exists detail :: db.run.output == Some(ErrorResult(detail))
                     && Caused(env, db.run.cancel, db.log, db.rows[..|db.rows| - 1], db.run.error.value, detail)
  }

  lemma FailedIsCaused(env: Env, start: nat, w: World)
    requires CausedInv(env, start, w) && StatusOk(start, w.db) && w.db.run.status == Failed
    requires w.db.run.output != Some(ErrorResult(NOT_STARTED))
    ensures FailureIsCaused(env, w.db)
  {
    var n := |w.db.rows| - 1;
    assert RowCaused(env, w.db.run.cancel, w.db.log, w.db.rows[..n], w.db.rows[n]);
  }

  /** Under timely leases a failed run that was not cancelled before it started says truly why it failed. */
  lemma FailureTellsCause(env: Env, now: Time, rows: seq<Row>, schedule: seq<Action>)
    requires StartOk(env.job, rows) && AllTimely(env, Enqueued(now, rows), schedule)
    requires var db := Run(env, FULL, Enqueued(now, rows), schedule).db;
             db.run.status == Failed && db.run.output != Some(ErrorResult(NOT_STARTED))
    ensures FailureIsCaused(env, Run(env, FULL, Enqueued(now, rows), schedule).db)
  {
    ErrorsAreCaused(env, now, rows, schedule);
    StatusTellsLedger(env, now, rows, schedule);
    FailedIsCaused(env, |rows|, Run(env, FULL, Enqueued(now, rows), schedule));
  }
}
