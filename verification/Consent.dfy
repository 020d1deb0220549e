/** Which call a human approved. The engine looks an approval up by call id; this is when the row it finds was recorded for
    the very call it then runs. */
module Consent {
  import opened Values
  import opened Models
  import opened Rebuild
  import opened Protocol
  import opened LedgerInvariant
  import opened Approvals
  import opened Dispatches
  import opened Timed
  import opened Fork

  /** The calls the run was parked for since it was enqueued, in order. */
  function WaitCalls(start: nat, rows: seq<Row>): seq<ToolCall> {
    if |rows| <= start then []
    else
      var before := WaitCalls(start, rows[..|rows| - 1]);
      match rows[|rows| - 1].body
      case WaitStep(call) => before + [call]
      case _ => before
  }

  /** Approval rows and approval_wait steps come in pairs, one per call id. */
  predicate Paired(start: nat, db: Db) {
    && |db.approvals| == |WaitCalls(start, db.rows)|
    && (forall i :: 0 <= i < |db.approvals| ==> db.approvals[i].call == WaitCalls(start, db.rows)[i])
    && (forall i, j :: 0 <= i < j < |db.approvals| ==> db.approvals[i].call.id != db.approvals[j].call.id)
  }

  /** The run was parked for this call. */
  predicate ParkedFor(start: nat, rows: seq<Row>, call: ToolCall) {
    exists i :: start <= i < |rows| && rows[i].body == WaitStep(call)
  }

  /** A human approved this call: not only its id, its name and arguments too. */
  predicate ApprovedItself(approvals: seq<Approval>, call: ToolCall) {
    exists i :: 0 <= i < |approvals| && approvals[i] == Approval(call, Approved)
  }

  // ---------------------------------------------------------------------------
  // Pairs
  // ---------------------------------------------------------------------------

  lemma WaitCallsAppend(start: nat, rows: seq<Row>, row: Row)
    requires start <= |rows|
    ensures WaitCalls(start, rows + [row])
         == if row.body.WaitStep? then WaitCalls(start, rows) + [row.body.call] else WaitCalls(start, rows)
  {
    assert (rows + [row])[..|rows|] == rows;
  }

  /** All a session's step does to approvals and approval_wait steps. */
  lemma StepAsks(env: Env, db: Db, s: Session, sid: nat, asOf: Time, outcome: Outcome)
    ensures var db' := StepSession(env, FULL, db, s, sid, asOf, outcome).0;
            || (db'.approvals == db.approvals && db'.rows == db.rows)
            || (db'.approvals == db.approvals && exists row :: db'.rows == db.rows + [row] && !row.body.WaitStep?)
            || (exists row :: db'.rows == db.rows + [row] && row.body.WaitStep? && !HasApproval(db.approvals, row.body.call.id)
                           && db'.approvals == db.approvals + [Approval(row.body.call, Verdict.Pending)])
  {
    var db' := StepSession(env, FULL, db, s, sid, asOf, outcome).0;
    if s.pc.CommitWait? && s.pc.i < |s.pending| {
      WaitAsks(env, db, s, sid, asOf, outcome);
    } else if db'.rows != db.rows {
      OthersAskNot(env, db, s, sid, asOf, outcome);
      assert db'.rows == db.rows + [db'.rows[|db.rows|]];
    } else {
      OthersAskNot(env, db, s, sid, asOf, outcome);
    }
  }

  lemma WaitAsks(env: Env, db: Db, s: Session, sid: nat, asOf: Time, outcome: Outcome)
    requires s.pc.CommitWait? && s.pc.i < |s.pending|
    ensures var db' := StepSession(env, FULL, db, s, sid, asOf, outcome).0;
            var row := NewRow(s, WaitStep(s.pending[s.pc.i]), Some(s.pending[s.pc.i].id), None, 0);
            || (db'.approvals == db.approvals && db'.rows == db.rows)
            || (db'.rows == db.rows + [row] && !HasApproval(db.approvals, row.body.call.id)
                && db'.approvals == db.approvals + [Approval(row.body.call, Verdict.Pending)])
  {
  }

  lemma OthersAskNot(env: Env, db: Db, s: Session, sid: nat, asOf: Time, outcome: Outcome)
    requires !(s.pc.CommitWait? && s.pc.i < |s.pending|)
    ensures var db' := StepSession(env, FULL, db, s, sid, asOf, outcome).0;
            && db'.approvals == db.approvals
            && (db'.rows == db.rows
                || (|db'.rows| == |db.rows| + 1 && db.rows <= db'.rows && !db'.rows[|db.rows|].body.WaitStep?))
  {
  }

  lemma StepKeepsPaired(env: Env, start: nat, db: Db, s: Session, sid: nat, asOf: Time, outcome: Outcome)
    requires Paired(start, db) && start <= |db.rows|
    ensures Paired(start, StepSession(env, FULL, db, s, sid, asOf, outcome).0)
  {
    var db' := StepSession(env, FULL, db, s, sid, asOf, outcome).0;
    StepAsks(env, db, s, sid, asOf, outcome);
    if db'.rows != db.rows {
      var row :| db'.rows == db.rows + [row];
      assert row == db'.rows[|db.rows|];
      WaitCallsAppend(start, db.rows, row);
    }
  }

  lemma IdleKeepsPaired(env: Env, start: nat, w: World, a: Action)
    requires Paired(start, w.db) && !Moves(w, a)
    ensures Paired(start, Next(env, FULL, w, a).db)
  {
  }

  lemma {:induction false} AlwaysPaired(env: Env, now: Time, rows: seq<Row>, schedule: seq<Action>)
    requires StartOk(env.job, rows)
    ensures Paired(|rows|, Run(env, FULL, Enqueued(now, rows), schedule).db)
  {
    if schedule != [] {
      var before, a := schedule[..|schedule| - 1], schedule[|schedule| - 1];
      AlwaysPaired(env, now, rows, before);
      LedgerAlwaysOk(env, now, rows, before);
      var w := Run(env, FULL, Enqueued(now, rows), before);
      if Moves(w, a) {
        StepKeepsPaired(env, |rows|, w.db, w.sessions[a.sid], a.sid, a.asOf, a.outcome);
      } else {
        IdleKeepsPaired(env, |rows|, w, a);
      }
    }
  }

  // ---------------------------------------------------------------------------
  // Whose approval it is
  // ---------------------------------------------------------------------------

  lemma {:induction false} WaitCallsAreRows(start: nat, rows: seq<Row>, call: ToolCall)
    ensures call in WaitCalls(start, rows) <==> ParkedFor(start, rows, call)
  {
    if |rows| > start {
      var init := rows[..|rows| - 1];
      WaitCallsAreRows(start, init, call);
      if ParkedFor(start, init, call) {
        var i :| start <= i < |init| && init[i].body == WaitStep(call);
        assert rows[i].body == WaitStep(call);
      }
      if ParkedFor(start, rows, call) {
        var i :| start <= i < |rows| && rows[i].body == WaitStep(call);
        if i < |init| {
          assert init[i].body == WaitStep(call);
        }
      }
    }
  }

  /** Exactly: where the engine finds an approval for the id of a call, a human approved that very call if and only if the
      run was parked for it, and not for another call with its id. */
  lemma ApprovedItselfIff(start: nat, db: Db, call: ToolCall)
    requires Paired(start, db) && FindApproval(db.approvals, call.id) == Some(Approved)
    ensures ApprovedItself(db.approvals, call) <==> ParkedFor(start, db.rows, call)
  {
    WaitCallsAreRows(start, db.rows, call);
    var i :| 0 <= i < |db.approvals| && db.approvals[i].call.id == call.id && db.approvals[i].verdict == Approved;
    if ApprovedItself(db.approvals, call) {
      var j :| 0 <= j < |db.approvals| && db.approvals[j] == Approval(call, Approved);
      assert WaitCalls(start, db.rows)[j] == call;
    }
    if ParkedFor(start, db.rows, call) {
      var j :| 0 <= j < |WaitCalls(start, db.rows)| && WaitCalls(start, db.rows)[j] == call;
      assert i == j;
    }
  }

  /** A call the run was parked for was asked for by a plan. */
  lemma ParkedCallIsAsked(env: Env, start: nat, rows: seq<Row>, i: nat)
    requires LedgerOk(env, start, rows) && i < |rows| && (rows[i].body.WaitStep? || rows[i].body.IntentStep?)
    ensures Asked(rows, rows[i].body.call)
  {
    assert Shaped(env.job, rows[..i], rows[i]);
    LastCallsAreAsked(rows[..i], rows[i].body.call);
    var k :| 0 <= k < i && rows[..i][k].body.PlanStep? && rows[i].body.call in rows[..i][k].body.calls;
    assert rows[k].body.PlanStep? && rows[i].body.call in rows[k].body.calls;
  }

  lemma RecordedCallIsAsked(env: Env, start: nat, db: Db, i: nat)
    requires Paired(start, db) && LedgerOk(env, start, db.rows) && i < |db.approvals|
    ensures Asked(db.rows, db.approvals[i].call)
  {
    var call := db.approvals[i].call;
    assert WaitCalls(start, db.rows)[i] == call;
    WaitCallsAreRows(start, db.rows, call);
    var j :| start <= j < |db.rows| && db.rows[j].body == WaitStep(call);
    ParkedCallIsAsked(env, start, db.rows, j);
  }

  lemma SameIdSameCall(rows: seq<Row>, call: ToolCall, other: ToolCall)
    requires IdsDetermineCalls(rows) && Asked(rows, call) && Asked(rows, other) && call.id == other.id
    ensures call == other
  {
    var k :| 0 <= k < |rows| && rows[k].body.PlanStep? && call in rows[k].body.calls;
    var m :| 0 <= m < |rows| && rows[m].body.PlanStep? && other in rows[m].body.calls;
  }

  /** If ids determine calls, what the engine finds for a call that is on the ledger was recorded for it. */
  lemma UniqueIdsApproveItself(env: Env, start: nat, db: Db, call: ToolCall)
    requires Paired(start, db) && LedgerOk(env, start, db.rows) && IdsDetermineCalls(db.rows) && Asked(db.rows, call)
    requires FindApproval(db.approvals, call.id) == Some(Approved)
    ensures ApprovedItself(db.approvals, call)
  {
    var i :| 0 <= i < |db.approvals| && db.approvals[i].call.id == call.id && db.approvals[i].verdict == Approved;
    RecordedCallIsAsked(env, start, db, i);
    SameIdSameCall(db.rows, call, db.approvals[i].call);
  }

  lemma DispatchedIsAsked(env: Env, start: nat, db: Db, n: nat)
    requires LedgerOk(env, start, db.rows) && n < |db.log| && SentAfterIntent(env, db.rows, db.log[n])
    ensures Asked(db.rows, db.log[n].call)
  {
    var e := db.log[n];
    var i :| 0 <= i < e.at && db.rows[..e.at][i].key == Some(Intent(e.key));
    assert Shaped(env.job, db.rows[..i], db.rows[i]);
    ParkedCallIsAsked(env, start, db.rows, i);
  }

  lemma DispatchesApprovedItself(env: Env, now: Time, rows: seq<Row>, schedule: seq<Action>, n: nat)
    requires StartOk(env.job, rows)
    requires var db := Run(env, FULL, Enqueued(now, rows), schedule).db;
             && n < |db.log| && IdsDetermineCalls(db.rows)
             && FindApproval(db.approvals, db.log[n].call.id) == Some(Approved)
    ensures var db := Run(env, FULL, Enqueued(now, rows), schedule).db; ApprovedItself(db.approvals, db.log[n].call)
  {
    AlwaysPaired(env, now, rows, schedule);
    LedgerAlwaysOk(env, now, rows, schedule);
    LogAlwaysOk(env, now, rows, schedule);
    var db := Run(env, FULL, Enqueued(now, rows), schedule).db;
    DispatchedIsAsked(env, |rows|, db, n);
    UniqueIdsApproveItself(env, |rows|, db, db.log[n].call);
  }

  /** With unique call ids a guarded call is dispatched only after a human approved this very call, leases kept or not. */
  lemma DispatchedOnlyIfApprovedItself(env: Env, now: Time, rows: seq<Row>, schedule: seq<Action>, n: nat)
    requires StartOk(env.job, rows) && NoIntentPending(env, rows) && CleanReads(env, Enqueued(now, rows), schedule)
    requires var db := Run(env, FULL, Enqueued(now, rows), schedule).db;
             n < |db.log| && Guarded(env, db.log[n].call) && IdsDetermineCalls(db.rows)
    ensures var db := Run(env, FULL, Enqueued(now, rows), schedule).db; ApprovedItself(db.approvals, db.log[n].call)
  {
    DispatchedOnlyIfApproved(env, now, rows, schedule, n);
    DispatchesApprovedItself(env, now, rows, schedule, n);
  }

  /** The same under timely leases, from any ledger a run may start with. */
  lemma TimelyApprovalItself(env: Env, now: Time, rows: seq<Row>, schedule: seq<Action>, n: nat)
    requires StartOk(env.job, rows)
    requires AllTimely(env, Enqueued(now, rows), schedule) && AllCleanClaims(env, Enqueued(now, rows), schedule)
    requires var db := Run(env, FULL, Enqueued(now, rows), schedule).db;
             n < |db.log| && Guarded(env, db.log[n].call) && IdsDetermineCalls(db.rows)
    ensures var db := Run(env, FULL, Enqueued(now, rows), schedule).db; ApprovedItself(db.approvals, db.log[n].call)
  {
    TimelyApproval(env, now, rows, schedule, n);
    DispatchesApprovedItself(env, now, rows, schedule, n);
  }

  /** Whatever the ids: a guarded call that is dispatched was approved itself if and only if the run was parked for it. */
  lemma DispatchedUnderOwnApprovalIff(env: Env, now: Time, rows: seq<Row>, schedule: seq<Action>, n: nat)
    requires StartOk(env.job, rows)
    requires AllTimely(env, Enqueued(now, rows), schedule) && AllCleanClaims(env, Enqueued(now, rows), schedule)
    requires var db := Run(env, FULL, Enqueued(now, rows), schedule).db;
             n < |db.log| && Guarded(env, db.log[n].call)
    ensures var db := Run(env, FULL, Enqueued(now, rows), schedule).db;
            ApprovedItself(db.approvals, db.log[n].call) <==> ParkedFor(|rows|, db.rows, db.log[n].call)
  {
    TimelyApproval(env, now, rows, schedule, n);
    AlwaysPaired(env, now, rows, schedule);
    ApprovedItselfIff(|rows|, Run(env, FULL, Enqueued(now, rows), schedule).db,
                      Run(env, FULL, Enqueued(now, rows), schedule).db.log[n].call);
  }
}
