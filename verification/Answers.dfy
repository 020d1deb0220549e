/** What the ledger says about guarded calls: an answer is on it only once a human decided, and after a rejection it is
    the rejection. */
module Answers {
  import opened Values
  import opened Models
  import opened Rebuild
  import opened Protocol
  import opened LedgerInvariant
  import opened Approvals
  import opened CrashTransparency
  import opened Provenance

  /** The call was approved, or it was rejected and the result says so. */
  predicate Settles(approvals: seq<Approval>, call: ToolCall, result: Json) {
    || FindApproval(approvals, call.id) == Some(Approved)
    || (FindApproval(approvals, call.id) == Some(Rejected) && result == REJECTED)
  }

  predicate RowSettles(env: Env, approvals: seq<Approval>, row: Row) {
    row.body.Observation? && row.key.Some? && row.key.value.Call? && Guarded(env, row.key.value.call) ==>
      Settles(approvals, row.key.value.call, row.body.result)
  }

  ghost predicate RowsSettle(env: Env, start: nat, db: Db) {
    forall i :: start <= i < |db.rows| ==> RowSettles(env, db.approvals, db.rows[i])
  }

  predicate SessionSettles(env: Env, db: Db, s: Session) {
    s.pc.CommitObservation? && s.pc.i < |s.pending| && Guarded(env, s.pending[s.pc.i]) && Current(db, s) ==>
      Settles(db.approvals, s.pending[s.pc.i], s.pc.result)
  }

  ghost predicate SettledInv(env: Env, start: nat, w: World) {
    && ApprovalInv(env, start, w) && RowsSettle(env, start, w.db)
    && forall k :: 0 <= k < |w.sessions| ==> SessionSettles(env, w.db, w.sessions[k])
  }

  // ---------------------------------------------------------------------------
  // Preservation
  // ---------------------------------------------------------------------------

  lemma DecideSettles(env: Env, db: Db, s: Session)
    requires s.pc.NextCall? && SessionApproved(env, db, s)
    ensures SessionSettles(env, db, s.(pc := Decide(env, db, s, s.pc.i)))
  {
    if Current(db, s) && s.pc.i < |s.pending| {
      FoundIsDecided(db.approvals, s.pending[s.pc.i].id);
    }
  }

  lemma IntentSettles(env: Env, start: nat, db: Db, s: Session, sid: nat, asOf: Time, outcome: Outcome)
    requires DbOk(env, start, db) && SessionOk(env, start, db, s) && s.pc.CommitIntent? && SessionApproved(env, db, s)
    ensures var (db', s') := StepSession(env, FULL, db, s, sid, asOf, outcome); SessionSettles(env, db', s')
  {
    CurrentWasCurrent(env, start, db, s, sid, asOf, outcome);
  }

  lemma DispatchSettles(env: Env, start: nat, db: Db, s: Session, sid: nat, asOf: Time, outcome: Outcome)
    requires SessionOk(env, start, db, s) && s.pc.Dispatch? && SessionApproved(env, db, s)
    ensures var (db', s') := StepSession(env, FULL, db, s, sid, asOf, outcome); SessionSettles(env, db', s')
  {
  }

  lemma StepSettlesSession(env: Env, start: nat, db: Db, s: Session, sid: nat, asOf: Time, outcome: Outcome)
    requires DbOk(env, start, db) && SessionOk(env, start, db, s) && SessionApproved(env, db, s)
    ensures var (db', s') := StepSession(env, FULL, db, s, sid, asOf, outcome); SessionSettles(env, db', s')
  {
    if s.pc.NextCall? {
      DecideSettles(env, db, s);
    } else if s.pc.CommitIntent? {
      IntentSettles(env, start, db, s, sid, asOf, outcome);
    } else if s.pc.Dispatch? {
      DispatchSettles(env, start, db, s, sid, asOf, outcome);
    } else {
      OnlyThreeStepsObserve(env, db, s, sid, asOf, outcome);
    }
  }

  /** Rows stay settled when decided approvals stay decided, and a new one is what a current session committed. */
  lemma RowsStaySettled(env: Env, start: nat, db: Db, db': Db, s: Session)
    requires RowsSettle(env, start, db) && SessionSettles(env, db, s) && Keeps(db.approvals, db'.approvals)
    requires || db'.rows == db.rows
             || (|db'.rows| == |db.rows| + 1 && db.rows <= db'.rows
                 && (db'.rows[|db.rows|].body.Observation? ==>
                       && s.pc.CommitObservation? && s.pc.i < |s.pending| && Current(db, s)
                       && db'.rows[|db.rows|].key == Some(KeyOf(env.job, s.pending[s.pc.i]))
                       && db'.rows[|db.rows|].body.result == s.pc.result))
    ensures RowsSettle(env, start, db')
  {
    forall i | start <= i < |db'.rows|
      ensures RowSettles(env, db'.approvals, db'.rows[i])
    {
      if i < |db.rows| {
        assert RowSettles(env, db.approvals, db.rows[i]);
      }
    }
  }

  lemma ObserverIsCurrent(env: Env, start: nat, db: Db, s: Session, sid: nat, asOf: Time, outcome: Outcome)
    requires DbOk(env, start, db) && SessionOk(env, start, db, s) && s.pc.CommitObservation?
    ensures StepSession(env, FULL, db, s, sid, asOf, outcome).0.rows != db.rows ==> Current(db, s)
  {
    SeqFreeIsEnd(db.rows, s.local.cursor);
  }

  lemma StepKeepsRowsSettled(env: Env, start: nat, db: Db, s: Session, sid: nat, asOf: Time, outcome: Outcome)
    requires DbOk(env, start, db) && SessionOk(env, start, db, s)
    requires RowsSettle(env, start, db) && SessionSettles(env, db, s)
    ensures RowsSettle(env, start, StepSession(env, FULL, db, s, sid, asOf, outcome).0)
    ensures Keeps(db.approvals, StepSession(env, FULL, db, s, sid, asOf, outcome).0.approvals)
  {
    var (db', s') := StepSession(env, FULL, db, s, sid, asOf, outcome);
    StepApprovals(env, FULL, db, s, sid, asOf, outcome);
    if db'.approvals != db.approvals {
      var a :| db'.approvals == db.approvals + [a];
      AppendKeeps(db.approvals, a);
    }
    AppendedIsCommitted(env, db, s, sid, asOf, outcome);
    if s.pc.CommitObservation? {
      ObserverIsCurrent(env, start, db, s, sid, asOf, outcome);
    }
    RowsStaySettled(env, start, db, db', s);
  }

  lemma MovedStaysSettled(env: Env, start: nat, w: World, sid: nat, db': Db, s': Session)
    requires SettledInv(env, start, w) && sid < |w.sessions| && Grows(w.db, db')
    requires ApprovalInv(env, start, World(db', w.sessions[sid := s'])) && Keeps(w.db.approvals, db'.approvals)
    requires RowsSettle(env, start, db') && SessionSettles(env, db', s')
    ensures SettledInv(env, start, World(db', w.sessions[sid := s']))
  {
    var sessions := w.sessions[sid := s'];
    forall k | 0 <= k < |sessions|
      ensures SessionSettles(env, db', sessions[k])
    {
      if k != sid {
        assert SessionSettles(env, w.db, w.sessions[k]) && SessionOk(env, start, w.db, w.sessions[k]);
      }
    }
  }

  lemma IdleStaysSettled(env: Env, start: nat, w: World, w': World)
    requires SettledInv(env, start, w) && Idle(w, w') && ApprovalInv(env, start, w')
    requires Keeps(w.db.approvals, w'.db.approvals)
    ensures SettledInv(env, start, w')
  {
    forall i | start <= i < |w'.db.rows|
      ensures RowSettles(env, w'.db.approvals, w'.db.rows[i])
    {
      assert RowSettles(env, w.db.approvals, w.db.rows[i]);
    }
    forall k | 0 <= k < |w'.sessions|
      ensures SessionSettles(env, w'.db, w'.sessions[k])
    {
      if k < |w.sessions| {
        assert SessionSettles(env, w.db, w.sessions[k]);
      }
    }
  }

  lemma NextStaysSettled(env: Env, start: nat, w: World, a: Action)
    requires SettledInv(env, start, w) && CleanRead(w, a)
    ensures SettledInv(env, start, Next(env, FULL, w, a))
  {
    NextKeepsApproved(env, start, w, a);
    if Moves(w, a) {
      var s := w.sessions[a.sid];
      var (db', s') := StepSession(env, FULL, w.db, s, a.sid, a.asOf, a.outcome);
      assert SessionOk(env, start, w.db, s) && SessionApproved(env, w.db, s) && SessionSettles(env, w.db, s);
      StepGrows(env, FULL, w.db, s, a.sid, a.asOf, a.outcome);
      StepSettlesSession(env, start, w.db, s, a.sid, a.asOf, a.outcome);
      StepKeepsRowsSettled(env, start, w.db, s, a.sid, a.asOf, a.outcome);
      MovedStaysSettled(env, start, w, a.sid, db', s');
    } else {
      MovesOrIdle(env, FULL, w, a);
      IdleApprovals(env, FULL, w, a);
      IdleStaysSettled(env, start, w, Next(env, FULL, w, a));
    }
  }

  /** With clean reads, no guarded call is answered on the ledger before a human decided; where the decision was a
      rejection, the answer is the rejection and nothing else. */
  lemma {:induction false} AnswersAreDecided(env: Env, now: Time, rows: seq<Row>, schedule: seq<Action>)
    requires StartOk(env.job, rows) && CleanReads(env, Enqueued(now, rows), schedule)
    ensures SettledInv(env, |rows|, Run(env, FULL, Enqueued(now, rows), schedule))
  {
    AlwaysApproved(env, now, rows, schedule);
    if schedule != [] {
      AnswersAreDecided(env, now, rows, schedule[..|schedule| - 1]);
      NextStaysSettled(env, |rows|, Run(env, FULL, Enqueued(now, rows), schedule[..|schedule| - 1]),
                       schedule[|schedule| - 1]);
    }
  }

  lemma RejectedAnswer(env: Env, start: nat, w: World, i: nat, call: ToolCall)
    requires SettledInv(env, start, w) && Guarded(env, call) && FindApproval(w.db.approvals, call.id) == Some(Rejected)
    requires start <= i < |w.db.rows| && w.db.rows[i].body.Observation? && w.db.rows[i].key == Some(KeyOf(env.job, call))
    ensures w.db.rows[i].body.result == REJECTED
    ensures forall j :: 0 <= j < |w.db.rows| && j != i ==> w.db.rows[j].key != w.db.rows[i].key
  {
    assert RowSettles(env, w.db.approvals, w.db.rows[i]);
  }

  /** A guarded call whose approval was rejected has nothing but the rejection on the ledger, and that once. */
  lemma RejectedIsRecordedAsRejected(env: Env, now: Time, rows: seq<Row>, schedule: seq<Action>, i: nat, call: ToolCall)
    requires StartOk(env.job, rows) && CleanReads(env, Enqueued(now, rows), schedule)
    requires Guarded(env, call)
    requires var db := Run(env, FULL, Enqueued(now, rows), schedule).db;
             && |rows| <= i < |db.rows| && db.rows[i].body.Observation? && db.rows[i].key == Some(KeyOf(env.job, call))
             && FindApproval(db.approvals, call.id) == Some(Rejected)
    ensures var ledger := Run(env, FULL, Enqueued(now, rows), schedule).db.rows;
            && ledger[i].body.result == REJECTED
            && forall j :: 0 <= j < |ledger| && j != i ==> ledger[j].key != ledger[i].key
  {
    AnswersAreDecided(env, now, rows, schedule);
    RejectedAnswer(env, |rows|, Run(env, FULL, Enqueued(now, rows), schedule), i, call);
  }
}
