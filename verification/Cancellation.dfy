/** Cooperative cancellation: once it is requested, the only plans still recorded are those of sessions that had already
    looked. */
module Cancellation {
  import opened Values
  import opened Models
  import opened Rebuild
  import opened Protocol
  import opened Timed

  /** A session that looked for a cancellation, found none, and may still record a plan. */
  predicate MayPlan(s: Session) {
    s.pc.LoadLedger? || s.pc.CommitPlan?
  }

  function Planners(sessions: seq<Session>): nat {
    if sessions == [] then 0
    else Planners(sessions[..|sessions| - 1]) + if MayPlan(sessions[|sessions| - 1]) then 1 else 0
  }

  lemma {:induction false} PlannersUpdate(sessions: seq<Session>, k: nat, s: Session)
    requires k < |sessions|
    ensures Planners(sessions[k := s]) + (if MayPlan(sessions[k]) then 1 else 0)
         == Planners(sessions) + if MayPlan(s) then 1 else 0
  {
    var n := |sessions| - 1;
    if k < n {
      PlannersUpdate(sessions[..n], k, s);
      assert sessions[k := s][..n] == sessions[..n][k := s];
    } else {
      assert sessions[k := s][..n] == sessions[..n];
    }
  }

  /** A cancellation is never taken back: no commit of a session writes the flag. */
  lemma CancelStays(env: Env, db: Db, s: Session, sid: nat, asOf: Time, outcome: Outcome)
    ensures StepSession(env, FULL, db, s, sid, asOf, outcome).0.run.cancel == db.run.cancel
  {
  }

  /** A step of a session records at most one row, a plan only if it stood at one. */
  lemma StepRecords(env: Env, db: Db, s: Session, sid: nat, asOf: Time, outcome: Outcome)
    ensures var (db', s') := StepSession(env, FULL, db, s, sid, asOf, outcome);
            || db'.rows == db.rows
            || (exists row :: db'.rows == db.rows + [row] && (row.body.PlanStep? ==> s.pc.CommitPlan? && !MayPlan(s')))
  {
  }

  /** After a cancellation nobody gets past the check any more. */
  lemma NobodyPasses(env: Env, db: Db, s: Session, sid: nat, asOf: Time, outcome: Outcome)
    requires db.run.cancel && !MayPlan(s)
    ensures !MayPlan(StepSession(env, FULL, db, s, sid, asOf, outcome).1)
  {
  }

  lemma StepPlansOnce(env: Env, db: Db, s: Session, sid: nat, asOf: Time, outcome: Outcome)
    requires db.run.cancel
    ensures var (db', s') := StepSession(env, FULL, db, s, sid, asOf, outcome);
            PlanCount(db'.rows) + (if MayPlan(s') then 1 else 0) <= PlanCount(db.rows) + if MayPlan(s) then 1 else 0
  {
    var (db', s') := StepSession(env, FULL, db, s, sid, asOf, outcome);
    StepRecords(env, db, s, sid, asOf, outcome);
    if !MayPlan(s) {
      NobodyPasses(env, db, s, sid, asOf, outcome);
    }
    if db'.rows != db.rows {
      var row :| db'.rows == db.rows + [row] && (row.body.PlanStep? ==> s.pc.CommitPlan? && !MayPlan(s'));
      FoldAppend(env.job, db.rows, row);
      if s.pc.LoadLedger? {
        LoadRecordsNothing(env, db, s, sid, asOf, outcome);
      }
    }
  }

  lemma LoadRecordsNothing(env: Env, db: Db, s: Session, sid: nat, asOf: Time, outcome: Outcome)
    requires s.pc.LoadLedger?
    ensures StepSession(env, FULL, db, s, sid, asOf, outcome).0 == db
  {
  }

  lemma {:induction false} IdlePlansNothing(sessions: seq<Session>, later: seq<Session>)
    requires |sessions| <= |later|
    requires forall k :: 0 <= k < |sessions| ==> MayPlan(later[k]) ==> MayPlan(sessions[k])
    requires forall k :: |sessions| <= k < |later| ==> !MayPlan(later[k])
    ensures Planners(later) <= Planners(sessions)
    decreases |later|
  {
    if later != [] {
      var n := |later| - 1;
      IdlePlansNothing(if |sessions| > n then sessions[..n] else sessions, later[..n]);
    }
  }

  lemma NextPlansOnce(env: Env, w: World, a: Action)
    requires w.db.run.cancel
    ensures var w' := Next(env, FULL, w, a);
            w'.db.run.cancel && PlanCount(w'.db.rows) + Planners(w'.sessions) <= PlanCount(w.db.rows) + Planners(w.sessions)
  {
    var w' := Next(env, FULL, w, a);
    if Moves(w, a) {
      var (db', s') := StepSession(env, FULL, w.db, w.sessions[a.sid], a.sid, a.asOf, a.outcome);
      CancelStays(env, w.db, w.sessions[a.sid], a.sid, a.asOf, a.outcome);
      StepPlansOnce(env, w.db, w.sessions[a.sid], a.sid, a.asOf, a.outcome);
      PlannersUpdate(w.sessions, a.sid, s');
    } else {
      MovesOrIdle(env, FULL, w, a);
      IdlePlansNothing(w.sessions, w'.sessions);
    }
  }

  /** From the moment a cancellation is on record, every schedule adds at most as many plans as there were sessions past
      their check, and the cancellation stays on record. */
  lemma {:induction false} CancelStopsPlanning(env: Env, w: World, schedule: seq<Action>)
    requires w.db.run.cancel
    ensures var w' := Run(env, FULL, w, schedule);
            && w'.db.run.cancel
            && PlanCount(w'.db.rows) + Planners(w'.sessions) <= PlanCount(w.db.rows) + Planners(w.sessions)
  {
    if schedule != [] {
      CancelStopsPlanning(env, w, schedule[..|schedule| - 1]);
      NextPlansOnce(env, Run(env, FULL, w, schedule[..|schedule| - 1]), schedule[|schedule| - 1]);
    }
  }

  /** A request to cancel a run that is not over puts it on record; a run that is over stays as it is. */
  lemma CancelIsRecorded(env: Env, w: World)
    ensures var run := Next(env, FULL, w, Cancel).db.run;
            && (run.cancel <==> w.db.run.cancel || !Terminal(w.db.run.status))
            && (Terminal(w.db.run.status) ==> run == w.db.run)
            && (w.db.run.status == Queued ==> CancelledBeforeStart(w.db.run, run))
  {
  }

  /** Failed, as cancelled, and nothing else about the run changed. */
  predicate CancelledBeforeStart(was: RunRow, run: RunRow) {
    && run == was.(status := run.status, cancel := run.cancel, error := run.error, output := run.output)
    && run.status == Failed && run.cancel && run.error == Some(Cancelled) && run.output == Some(ErrorResult(NOT_STARTED))
  }

  /** A run that is cancelled while it is queued never starts: whatever timely workers do from then on, it stays failed as
      cancelled, no row is added to its ledger and nothing is dispatched. */
  lemma CancelledRunNeverStarts(env: Env, start: nat, w: World, schedule: seq<Action>)
    requires TimedInv(env, start, w) && w.db.run.status == Queued
    requires AllTimely(env, Next(env, FULL, w, Cancel), schedule)
    ensures var db' := Run(env, FULL, Next(env, FULL, w, Cancel), schedule).db;
            CancelledBeforeStart(w.db.run, db'.run) && db'.rows == w.db.rows && db'.log == w.db.log
  {
    NextKeepsTimed(env, start, w, Cancel);
    CancelIsRecorded(env, w);
    TerminalIsFinal(env, start, Next(env, FULL, w, Cancel), schedule);
  }
}
