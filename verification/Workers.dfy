/** The worker's own code: one claim, one reload, one drive of the run, written as it runs, loop by loop and commit by
    commit, with everybody else at work in between. Every commit is proved to be the session's next step in the
    protocol, so what holds for every schedule holds for these loops; and the loops end, whatever the others do. */
module Workers {
  import opened Values
  import opened Models
  import opened Rebuild
  import opened Protocol
  import opened LedgerInvariant
  import opened Shared
  import opened Claims

  /** How a drive of a run ends: the run is terminal, waits for a human, or was abandoned because the lease went to
      somebody else or the database refused an insert. */
  datatype End = Finished | Parked | LeaseLost | Refused

  /** The last action was a step of session `sid`, and the one it stopped with. */
  ghost predicate StopsLast(schedule: seq<Action>, history: seq<World>, sid: nat) {
    var n := |schedule| - 1;
    && n >= 0 && |history| == n + 2 && schedule[n].Step? && schedule[n].sid == sid
    && sid < |history[n].sessions| && history[n].sessions[sid].pc != Stopped
    && sid < |history[n + 1].sessions| && history[n + 1].sessions[sid].pc == Stopped
  }

  /** The ledger holds a final or error step of this worker in this attempt. */
  ghost predicate EndIsRecorded(rows: seq<Row>, worker: Worker, attempt: nat) {
    exists i :: 0 <= i < |rows| && rows[i].worker == worker && rows[i].attempt == attempt
             && (rows[i].body.FinalStep? || rows[i].body.ErrorStep?)
  }

  /** The ledger holds an approval_wait step of this worker in this attempt. */
  ghost predicate WaitIsRecorded(rows: seq<Row>, worker: Worker, attempt: nat) {
    exists i :: 0 <= i < |rows| && rows[i].worker == worker && rows[i].attempt == attempt && rows[i].body.WaitStep?
  }

  /** Somebody else's row has the number of the row session `s` is about to insert, or its key, or the call it is about to
      ask for has an approval already. */
  ghost predicate Forestalled(env: Env, db: Db, s: Session) {
    var taken := exists j :: 0 <= j < |db.rows| && db.rows[j].seqNo == s.local.cursor + 1;
    match s.pc
    case CommitPlan(_) => taken
    case CommitFinal(_) => taken
    case CommitError(_, _) => taken
    case CommitIntent(i) => taken || (i < |s.pending| && HasKey(db.rows, Intent(Call(env.job.id, s.pending[i]))))
    case CommitObservation(i, _, _) => taken || (i < |s.pending| && HasKey(db.rows, Call(env.job.id, s.pending[i])))
    case CommitWait(i) =>
      taken || (i < |s.pending| && exists j :: 0 <= j < |db.approvals| && db.approvals[j].call.id == s.pending[i].id)
    case _ => false
  }

  /** What `end` says of the session whose last step the last action was. */
  ghost predicate EndsAs(env: Env, history: seq<World>, sid: nat, end: End) {
    && |history| >= 2
    && var before, after := history[|history| - 2], history[|history| - 1];
       && sid < |before.sessions| && sid < |after.sessions|
       && var s := after.sessions[sid];
          match end
          case Finished =>
            && EndIsRecorded(after.db.rows, s.worker, s.local.attempt)
            && (env.agent.Some? ==> after.db.run.status == Succeeded || after.db.run.status == Failed)
          case Parked =>
            && WaitIsRecorded(after.db.rows, s.worker, s.local.attempt)
            && (env.agent.Some? ==> after.db.run.status == ApprovalWait)
          case LeaseLost => after.db == before.db && after.db.run.owner != s.local.owner
          case Refused => after.db == before.db && Forestalled(env, after.db, before.sessions[sid])
  }

  lemma RecordsStay(rows: seq<Row>, more: seq<Row>, worker: Worker, attempt: nat)
    requires rows <= more
    ensures EndIsRecorded(rows, worker, attempt) ==> EndIsRecorded(more, worker, attempt)
    ensures WaitIsRecorded(rows, worker, attempt) ==> WaitIsRecorded(more, worker, attempt)
  {
    if EndIsRecorded(rows, worker, attempt) {
      var i :| 0 <= i < |rows| && rows[i].worker == worker && rows[i].attempt == attempt
            && (rows[i].body.FinalStep? || rows[i].body.ErrorStep?);
      assert more[i] == rows[i];
    }
    if WaitIsRecorded(rows, worker, attempt) {
      var i :| 0 <= i < |rows| && rows[i].worker == worker && rows[i].attempt == attempt && rows[i].body.WaitStep?;
      assert more[i] == rows[i];
    }
  }

  lemma LastIsRecorded(rows: seq<Row>, worker: Worker, attempt: nat)
    requires rows != [] && rows[|rows| - 1].worker == worker && rows[|rows| - 1].attempt == attempt
    ensures rows[|rows| - 1].body.FinalStep? || rows[|rows| - 1].body.ErrorStep? ==> EndIsRecorded(rows, worker, attempt)
    ensures rows[|rows| - 1].body.WaitStep? ==> WaitIsRecorded(rows, worker, attempt)
  {
  }

  datatype Pass = Completed | Stop(end: End)

  class Executor {
    const db: Database
    const sid: nat
    const workerId: Worker
    /** Attributes of the run as this code sees them, and as they were when last read or written. */
    var run: RunRow
    var loaded: RunRow

    ghost predicate Attached()
      reads this, db
    {
      && db.Started() && sid < |db.world.sessions| && db.world.sessions[sid].worker == workerId
    }

    /** The code is where the protocol has its session, and has flushed what it changed. */
    ghost predicate At(pc: Pc)
      reads this, db
    {
      && Attached() && run == loaded && db.world.sessions[sid].local == loaded && db.world.sessions[sid].pc == pc
      && (db.env.agent.Some? && !pc.Loaded? && !pc.Stopped? ==> loaded.status == Running)
    }

    /** The same, within a pass over `pending` with ledger snapshot `steps`. */
    ghost predicate InPass(pc: Pc, steps: seq<Row>, pending: seq<ToolCall>)
      reads this, db
    {
      At(pc) && db.world.sessions[sid].steps == steps && db.world.sessions[sid].pending == pending
    }

    /** The session stopped, by its own last step, for the reason given. */
    ghost predicate Ended(end: End)
      reads this, db
    {
      && Attached() && db.world.sessions[sid].local == loaded
      && StopsLast(db.schedule, db.history, sid) && EndsAs(db.env, db.history, sid, end)
    }

    /** What was recorded before the last step still is. */
    lemma EndsWith(rows: seq<Row>, end: End)
      requires Attached() && db.world.sessions[sid].local == loaded && StopsLast(db.schedule, db.history, sid)
      requires rows <= db.world.db.rows
      requires
        || (end == Finished && EndIsRecorded(rows, workerId, loaded.attempt)
            && (db.env.agent.Some? ==> db.world.db.run.status == Succeeded || db.world.db.run.status == Failed))
        || (end == Parked && WaitIsRecorded(rows, workerId, loaded.attempt)
            && (db.env.agent.Some? ==> db.world.db.run.status == ApprovalWait))
      ensures Ended(end)
    {
      RecordsStay(rows, db.world.db.rows, workerId, loaded.attempt);
    }

    /** A fresh database session reads the run that was claimed. */
    constructor (db: Database, sid: nat, workerId: Worker, run: RunRow)
      ensures this.db == db && this.sid == sid && this.workerId == workerId && this.run == run && this.loaded == run
    {
      this.db, this.sid, this.workerId, this.run, this.loaded := db, sid, workerId, run, run;
    }

    // -------------------------------------------------------------------------
    // Commits
    // -------------------------------------------------------------------------

    /** Between two of our transactions everybody else may act. */
    method Wait()
      requires Attached()
      modifies db
      ensures Attached() && old(db.history) <= db.history && db.world.sessions[sid] == old(db.world.sessions[sid])
      ensures old(db.world.db.rows) <= db.world.db.rows && GapFree(db.world.db.rows)
      ensures old(db.world.db.now) <= db.world.db.now
    {
      ghost var before := |db.schedule|;
      db.ElapseAround(sid);
      db.Grew(before);
      db.Advanced(before);
    }

    /** Insert a step and move the cursor, in one transaction. */
    method CommitStep(ghost pc: Pc, body: Body, callId: Option<string>, key: Option<Key>, cost: int, next: Pc)
      returns (ok: bool)
      requires At(pc)
      requires InsertOf(db.env, db.world.sessions[sid])
            == Some((NewRow(db.world.sessions[sid], body, callId, key, cost), next))
      modifies this, db
      ensures old(db.history) <= db.history && loaded.attempt == old(loaded.attempt)
      ensures ok ==>
                && InPass(next, old(db.world.sessions[sid].steps), old(db.world.sessions[sid].pending))
                && |db.world.db.rows| > |old(db.world.db.rows)| && old(db.world.db.rows) <= db.world.db.rows
                && db.world.db.rows[|db.world.db.rows| - 1]
                   == Row(old(loaded.cursor) + 1, body, callId, key, cost, workerId, loaded.attempt)
      ensures !ok ==> Ended(Refused)
    {
      Wait();
      var seqNo := run.cursor + 1;
      var step := Row(seqNo, body, callId, key, cost, workerId, run.attempt);
      run := run.(cursor := seqNo);
      ok := db.Insert(sid, step, run, next);
      if ok {
        loaded := run;
      }
    }

    /** Commit the attributes set on the run. */
    method Commit(ghost pc: Pc, next: Pc)
      requires Attached() && db.world.sessions[sid].local == loaded && db.world.sessions[sid].pc == pc
      requires forall d: Db, asOf: Time, outcome: Outcome ::
                 StepSession(db.env, FULL, d, db.world.sessions[sid], sid, asOf, outcome)
                 == CommitRun(d, db.world.sessions[sid], run, next)
      requires db.env.agent.Some? && next != Stopped ==> run.status == Running
      modifies this, db
      ensures old(db.history) <= db.history && At(next) && run == old(run) && old(db.world.db.rows) <= db.world.db.rows
      ensures next == Stopped && pc != Stopped ==> StopsLast(db.schedule, db.history, sid)
      ensures run.status != old(loaded.status) ==> db.world.db.run.status == run.status
    {
      Wait();
      var d, s := db.world.db, db.world.sessions[sid];
      db.Transact(sid, d.now, Returned(Null), d.(run := Flush(d.run, loaded, run)), s.(local := run, pc := next));
      loaded := run;
    }

    /** Renew the lease where this code still owns it; no row updated means it was taken. */
    method Heartbeat() returns (owned: bool)
      requires At(LoopTop)
      modifies this, db
      ensures old(db.history) <= db.history && loaded.attempt == old(loaded.attempt)
      ensures old(db.world.db.rows) <= db.world.db.rows
      ensures owned ==> At(CheckCancel) && db.world.db.run.owner == run.owner
      ensures owned ==>
                && db.world.db.run.expiry == run.expiry && run.expiry.Some?
                && old(db.world.db.now) <= run.expiry.value - db.env.leaseSeconds <= db.world.db.now
      ensures !owned ==> Ended(LeaseLost)
    {
      var asOf := db.world.db.now;
      var newExpiry := asOf + db.env.leaseSeconds;
      Wait();
      var d, s := db.world.db, db.world.sessions[sid];
      if d.run.owner == run.owner {
        run := run.(expiry := Some(newExpiry));
        db.Transact(sid, asOf, Returned(Null), d.(run := d.run.(expiry := Some(newExpiry))),
                    s.(local := run, lease := newExpiry, pc := CheckCancel));
        loaded := run;
        owned := true;
      } else {
        db.Transact(sid, asOf, Returned(Null), d, s.(pc := Stopped));
        owned := false;
      }
    }

    method RefreshCancel()
      requires At(CheckCancel)
      modifies this, db
      ensures old(db.history) <= db.history && loaded.attempt == old(loaded.attempt)
      ensures old(db.world.db.rows) <= db.world.db.rows
      ensures At(if run.cancel then CommitError(Cancelled, CANCELLED) else LoadLedger)
    {
      Wait();
      var d, s := db.world.db, db.world.sessions[sid];
      run := run.(cancel := d.run.cancel);
      db.Transact(sid, d.now, Returned(Null), d,
                  s.(local := run, pc := if run.cancel then CommitError(Cancelled, CANCELLED) else LoadLedger));
      loaded := run;
    }

    /** Read the ledger and rebuild: the snapshot of a pass. */
    method LoadSteps() returns (steps: seq<Row>, state: State, pending: seq<ToolCall>)
      requires At(LoadLedger) && db.env.agent.Some?
      modifies db
      ensures old(db.history) <= db.history && old(db.world.db.rows) <= db.world.db.rows
      ensures steps == db.world.db.rows && state == StateOf(db.env.job, steps)
      ensures pending == PendingCalls(db.env.job, steps)
      ensures InPass(AfterLoad(db.env, steps, pending), steps, pending)
    {
      Wait();
      var d, s := db.world.db, db.world.sessions[sid];
      LoadIsStep(db.env, d, s, sid, d.now, Returned(Null));
      steps := OrderBySeq(d.rows);
      state, pending := RebuildState(db.env.job, steps);
      db.Transact(sid, d.now, Returned(Null), d,
                  s.(steps := steps, pending := pending, pc := AfterLoad(db.env, steps, pending)));
    }

    // -------------------------------------------------------------------------
    // Ends
    // -------------------------------------------------------------------------

    method Terminal(errorClass: ErrorClass, detail: string)
      requires At(CommitFailed(errorClass, detail))
      modifies this, db
      ensures old(db.history) <= db.history && At(Stopped) && loaded.attempt == old(loaded.attempt)
      ensures StopsLast(db.schedule, db.history, sid) && (db.env.agent.Some? ==> db.world.db.run.status == Failed)
      ensures old(db.world.db.rows) <= db.world.db.rows
    {
      run := run.(status := Failed, error := Some(errorClass), output := Some(ErrorResult(detail)));
      run := run.(owner := None, expiry := None);
      Commit(CommitFailed(errorClass, detail), Stopped);
    }

    method Fail(errorClass: ErrorClass, detail: string) returns (end: End)
      requires At(CommitError(errorClass, detail))
      modifies this, db
      ensures old(db.history) <= db.history && Ended(end) && end in {Finished, Refused}
      ensures loaded.attempt == old(loaded.attempt)
    {
      var ok := CommitStep(CommitError(errorClass, detail), ErrorStep(errorClass, detail), None, None, 0,
                           CommitFailed(errorClass, detail));
      if !ok {
        return Refused;
      }
      ghost var rows := db.world.db.rows;
      LastIsRecorded(rows, workerId, loaded.attempt);
      Terminal(errorClass, detail);
      EndsWith(rows, Finished);
      return Finished;
    }

    /** Record the final answer and finish the run. */
    method Succeed(plan: Plan) returns (end: End)
      requires At(CommitFinal(plan))
      modifies this, db
      ensures old(db.history) <= db.history && Ended(end) && end in {Finished, Refused}
      ensures loaded.attempt == old(loaded.attempt)
    {
      var ok := CommitStep(CommitFinal(plan), FinalStep(plan.output), None, None, 0, CommitSucceeded(plan.output));
      if !ok {
        return Refused;
      }
      ghost var rows := db.world.db.rows;
      LastIsRecorded(rows, workerId, loaded.attempt);
      run := run.(output := Some(WrapOutput(plan.output)));
      run := run.(status := Succeeded, owner := None, expiry := None);
      Commit(CommitSucceeded(plan.output), Stopped);
      EndsWith(rows, Finished);
      return Finished;
    }

    /** Approval row and approval_wait step, in one transaction. */
    method RequestApproval(call: ToolCall, i: nat, ghost steps: seq<Row>, ghost pending: seq<ToolCall>) returns (ok: bool)
      requires InPass(CommitWait(i), steps, pending) && i < |pending| && pending[i] == call
      modifies this, db
      ensures old(db.history) <= db.history && loaded.attempt == old(loaded.attempt)
      ensures ok ==> At(CommitParked) && WaitIsRecorded(db.world.db.rows, workerId, loaded.attempt)
      ensures !ok ==> Ended(Refused)
    {
      Wait();
      var step := Row(run.cursor + 1, WaitStep(call), Some(call.id), None, 0, workerId, run.attempt);
      run := run.(cursor := run.cursor + 1);
      ok := db.InsertWithApproval(sid, i, call, step, run);
      if ok {
        loaded := run;
        LastIsRecorded(db.world.db.rows, workerId, loaded.attempt);
      }
    }

    /** Ask a human and park the run. */
    method Park(call: ToolCall, i: nat, ghost steps: seq<Row>, ghost pending: seq<ToolCall>) returns (end: End)
      requires InPass(CommitWait(i), steps, pending) && i < |pending| && pending[i] == call
      modifies this, db
      ensures old(db.history) <= db.history && Ended(end) && end in {Parked, Refused}
      ensures loaded.attempt == old(loaded.attempt)
    {
      var ok := RequestApproval(call, i, steps, pending);
      if !ok {
        return Refused;
      }
      ghost var rows := db.world.db.rows;
      run := run.(status := ApprovalWait, owner := None, expiry := None);
      Commit(CommitParked, Stopped);
      EndsWith(rows, Parked);
      return Parked;
    }

    // -------------------------------------------------------------------------
    // A pass over the pending calls
    // -------------------------------------------------------------------------

    /** A step that decides where to go and writes nothing. */
    method Goto(ghost pc: Pc, next: Pc, ghost steps: seq<Row>, ghost pending: seq<ToolCall>)
      requires InPass(pc, steps, pending)
      requires StepSession(db.env, FULL, db.world.db, db.world.sessions[sid], sid, db.world.db.now, Returned(Null))
            == (db.world.db, db.world.sessions[sid].(pc := next))
      modifies db
      ensures old(db.history) <= db.history && InPass(next, steps, pending) && db.world.db == old(db.world.db)
    {
      var d, s := db.world.db, db.world.sessions[sid];
      db.Transact(sid, d.now, Returned(Null), d, s.(pc := next));
    }

    method Observe(i: nat, call: ToolCall, result: Json, cost: int, ghost steps: seq<Row>, ghost pending: seq<ToolCall>)
      returns (ok: bool)
      requires InPass(CommitObservation(i, result, cost), steps, pending) && i < |pending| && pending[i] == call
      modifies this, db
      ensures old(db.history) <= db.history && loaded.attempt == old(loaded.attempt)
      ensures ok ==>
                && InPass(NextCall(i + 1), steps, pending) && old(db.world.db.rows) <= db.world.db.rows
                && KeyOf(db.env.job, call) in Observed(db.world.db.rows)
      ensures !ok ==> Ended(Refused)
    {
      var key := KeyOf(db.env.job, call);
      ok := CommitStep(CommitObservation(i, result, cost), Observation(call.id, call.name, result), Some(call.id), Some(key),
                       cost, NextCall(i + 1));
      if ok {
        LastIsObserved(db.world.db.rows, key);
      }
    }

    /** One dispatch, under the call's key. How it ends is up to the tool. */
    method Send(i: nat, call: ToolCall, left: nat, ghost steps: seq<Row>, ghost pending: seq<ToolCall>)
      returns (outcome: Outcome)
      requires InPass(Dispatch(i, left), steps, pending) && i < |pending| && pending[i] == call && left > 0
      modifies db
      ensures old(db.history) <= db.history && old(db.world.db.rows) <= db.world.db.rows
      ensures InPass(AfterDispatch(db.env, i, left, outcome), steps, pending)
      ensures db.world.db.log != []
      ensures var e := db.world.db.log[|db.world.db.log| - 1];
              e.sid == sid && e.key == KeyOf(db.env.job, call) && e.call == call && e.outcome == outcome
    {
      Wait();
      outcome := *;
      var d, s := db.world.db, db.world.sessions[sid];
      db.Transact(sid, d.now, outcome,
                  d.(log := d.log + [Sent(sid, KeyOf(db.env.job, call), call, outcome, |d.rows|)]),
                  s.(pc := AfterDispatch(db.env, i, left, outcome)));
    }

    /** Dispatch under the call's key until the tool returns or its attempts are used up. */
    method DispatchWithRetries(i: nat, call: ToolCall, attempts: int, ghost steps: seq<Row>, ghost pending: seq<ToolCall>)
      returns (last: Outcome)
      requires InPass(StartDispatch(db.env, i, attempts), steps, pending) && i < |pending| && pending[i] == call
      modifies db
      ensures old(db.history) <= db.history && old(db.world.db.rows) <= db.world.db.rows
      ensures InPass(AfterDispatch(db.env, i, 1, last), steps, pending)
    {
      last := Returned(Null);
      var n := 0;
      while n < attempts
        invariant 0 <= n && old(db.history) <= db.history && old(db.world.db.rows) <= db.world.db.rows
        invariant InPass(if n < attempts then Dispatch(i, attempts - n) else AfterDispatch(db.env, i, 1, last),
                         steps, pending)
      {
        last := Send(i, call, attempts - n, steps, pending);
        if !last.Threw? {
          return;
        }
        n := n + 1;
      }
    }

    /** Make sure the intent is on the ledger before anything is dispatched. */
    method RecordIntent(i: nat, call: ToolCall, steps: seq<Row>, ghost pending: seq<ToolCall>) returns (ok: bool)
      requires InPass(Execute(db.env, steps, i, call), steps, pending) && i < |pending| && pending[i] == call
      requires call.name in db.env.tools
      modifies this, db
      ensures old(db.history) <= db.history && loaded.attempt == old(loaded.attempt)
      ensures ok ==> InPass(StartDispatch(db.env, i, db.env.tools[call.name] + 1), steps, pending)
      ensures ok ==> old(db.world.db.rows) <= db.world.db.rows
      ensures !ok ==> Ended(Refused)
    {
      var intent := Intent(KeyOf(db.env.job, call));
      if HasKey(steps, intent) {
        return true;
      }
      ok := CommitStep(CommitIntent(i), IntentStep(call), Some(call.id), Some(intent), 0,
                       StartDispatch(db.env, i, db.env.tools[call.name] + 1));
    }

    /** Record what the last dispatch gave, or fail with what it raised. */
    method Conclude(i: nat, call: ToolCall, last: Outcome, ghost steps: seq<Row>, ghost pending: seq<ToolCall>)
      returns (pass: Pass)
      requires InPass(AfterDispatch(db.env, i, 1, last), steps, pending) && i < |pending| && pending[i] == call
      modifies this, db
      ensures old(db.history) <= db.history && loaded.attempt == old(loaded.attempt)
      ensures pass.Completed? ==>
                && InPass(NextCall(i + 1), steps, pending) && old(db.world.db.rows) <= db.world.db.rows
                && KeyOf(db.env.job, call) in Observed(db.world.db.rows)
      ensures pass.Stop? ==> Ended(pass.end)
    {
      var ok;
      match last {
        case Returned(result) =>
          ok := Observe(i, call, result, CostOf(db.env, result), steps, pending);
        case Threw(detail, _) =>
          ok := Observe(i, call, ToolErrorResult(detail), 0, steps, pending);
        case Broke(message, _) =>
          var end := Fail(Infra, EngineError(message));
          return Stop(end);
      }
      return if ok then Completed else Stop(Refused);
    }

    /** Run one call that policy and approval let through: intent first, then the dispatches, then the observation. */
    method ExecuteCall(i: nat, call: ToolCall, steps: seq<Row>, ghost pending: seq<ToolCall>) returns (pass: Pass)
      requires InPass(Execute(db.env, steps, i, call), steps, pending) && i < |pending| && pending[i] == call
      modifies this, db
      ensures old(db.history) <= db.history && loaded.attempt == old(loaded.attempt)
      ensures pass.Completed? ==>
                && InPass(NextCall(i + 1), steps, pending) && old(db.world.db.rows) <= db.world.db.rows
                && KeyOf(db.env.job, call) in Observed(db.world.db.rows)
      ensures pass.Stop? ==> Ended(pass.end)
    {
      if call.name !in db.env.tools {
        var ok := Observe(i, call, UNKNOWN_TOOL, 0, steps, pending);
        return if ok then Completed else Stop(Refused);
      }
      var ok := RecordIntent(i, call, steps, pending);
      if !ok {
        return Stop(Refused);
      }
      var last := DispatchWithRetries(i, call, db.env.tools[call.name] + 1, steps, pending);
      pass := Conclude(i, call, last, steps, pending);
    }

    /** A guarded call: park if nobody was asked, record a rejection, otherwise go on. */
    method ExecuteGuarded(i: nat, call: ToolCall, steps: seq<Row>, ghost pending: seq<ToolCall>) returns (pass: Pass)
      requires InPass(NextCall(i), steps, pending) && i < |pending| && pending[i] == call
      requires !HasObservation(steps, KeyOf(db.env.job, call)) && db.env.policy(call) == RequireApproval
      modifies this, db
      ensures old(db.history) <= db.history && loaded.attempt == old(loaded.attempt)
      ensures pass.Completed? ==>
                && InPass(NextCall(i + 1), steps, pending) && old(db.world.db.rows) <= db.world.db.rows
                && KeyOf(db.env.job, call) in Observed(db.world.db.rows)
      ensures pass.Stop? ==> Ended(pass.end)
    {
      var approval := FindApproval(db.world.db.approvals, call.id);
      if approval.None? {
        Goto(NextCall(i), CommitWait(i), steps, pending);
        var end := Park(call, i, steps, pending);
        return Stop(end);
      }
      if approval.value == Rejected {
        Goto(NextCall(i), CommitObservation(i, REJECTED, 0), steps, pending);
        var ok := Observe(i, call, REJECTED, 0, steps, pending);
        return if ok then Completed else Stop(Refused);
      }
      Goto(NextCall(i), Execute(db.env, steps, i, call), steps, pending);
      pass := ExecuteCall(i, call, steps, pending);
    }

    /** One pending call: ask the policy, and do what it says. */
    method ExecuteNext(i: nat, call: ToolCall, steps: seq<Row>, ghost pending: seq<ToolCall>) returns (pass: Pass)
      requires InPass(NextCall(i), steps, pending) && i < |pending| && pending[i] == call
      requires !HasObservation(steps, KeyOf(db.env.job, call))
      modifies this, db
      ensures old(db.history) <= db.history && loaded.attempt == old(loaded.attempt)
      ensures pass.Completed? ==>
                && InPass(NextCall(i + 1), steps, pending) && old(db.world.db.rows) <= db.world.db.rows
                && KeyOf(db.env.job, call) in Observed(db.world.db.rows)
      ensures pass.Stop? ==> Ended(pass.end)
    {
      match db.env.policy(call)
      case Invalid(message) =>
        Goto(NextCall(i), CommitError(Infra, EngineError(message)), steps, pending);
        var end := Fail(Infra, EngineError(message));
        return Stop(end);
      case Deny =>
        Goto(NextCall(i), CommitObservation(i, POLICY_DENIED, 0), steps, pending);
        var ok := Observe(i, call, POLICY_DENIED, 0, steps, pending);
        return if ok then Completed else Stop(Refused);
      case RequireApproval =>
        pass := ExecuteGuarded(i, call, steps, pending);
      case Allow =>
        Goto(NextCall(i), Execute(db.env, steps, i, call), steps, pending);
        pass := ExecuteCall(i, call, steps, pending);
    }

    /** One pending call, unless the snapshot already holds its observation. */
    method ExecuteUnlessObserved(i: nat, call: ToolCall, steps: seq<Row>, ghost pending: seq<ToolCall>)
      returns (pass: Pass)
      requires InPass(NextCall(i), steps, pending) && i < |pending| && pending[i] == call && steps <= db.world.db.rows
      modifies this, db
      ensures old(db.history) <= db.history && loaded.attempt == old(loaded.attempt)
      ensures pass.Completed? ==>
                && InPass(NextCall(i + 1), steps, pending) && old(db.world.db.rows) <= db.world.db.rows
                && KeyOf(db.env.job, call) in Observed(db.world.db.rows)
      ensures pass.Stop? ==> Ended(pass.end)
    {
      Wait();
      if HasObservation(steps, KeyOf(db.env.job, call)) {
        ObservedSound(steps, KeyOf(db.env.job, call));
        ObservedMonotone(steps, db.world.db.rows);
        Goto(NextCall(i), NextCall(i + 1), steps, pending);
        return Completed;
      }
      pass := ExecuteNext(i, call, steps, pending);
    }

    /** Execute the calls the last plan asked for. */
    method ExecutePending(steps: seq<Row>, pending: seq<ToolCall>) returns (pass: Pass)
      requires InPass(NextCall(0), steps, pending) && steps <= db.world.db.rows
      modifies this, db
      ensures old(db.history) <= db.history && loaded.attempt == old(loaded.attempt)
      ensures pass.Completed? ==>
                && At(LoopTop) && old(db.world.db.rows) <= db.world.db.rows
                && AllObserved(db.env.job, pending, db.world.db.rows)
      ensures pass.Stop? ==> Ended(pass.end)
    {
      for i := 0 to |pending|
        invariant old(db.history) <= db.history && loaded.attempt == old(loaded.attempt)
        invariant InPass(NextCall(i), steps, pending) && old(db.world.db.rows) <= db.world.db.rows
        invariant AllObserved(db.env.job, pending[..i], db.world.db.rows)
      {
        ghost var rows := db.world.db.rows;
        pass := ExecuteUnlessObserved(i, pending[i], steps, pending);
        if pass.Stop? {
          return;
        }
        OneMoreObserved(db.env.job, pending, i, rows, db.world.db.rows);
      }
      assert pending[..|pending|] == pending;
      Goto(NextCall(|pending|), LoopTop, steps, pending);
      return Completed;
    }

    // -------------------------------------------------------------------------
    // The loop
    // -------------------------------------------------------------------------

    /** Ask the model for the next plan and record it, unless it would break the cap. */
    method PlanNext(steps: seq<Row>, state: State) returns (pass: Pass)
      requires db.env.agent.Some? && state == StateOf(db.env.job, steps) && PendingCalls(db.env.job, steps) == []
      requires PlanCount(steps) < db.env.maxSteps && steps <= db.world.db.rows
      requires At(AfterLoad(db.env, steps, []))
      modifies this, db
      ensures old(db.history) <= db.history && loaded.attempt == old(loaded.attempt)
      ensures pass.Completed? ==> At(LoopTop) && PlanCount(steps) < PlanCount(db.world.db.rows)
      ensures pass.Completed? ==>
                && db.env.agent.value(state).Planned?
                && var plan := db.env.agent.value(state).plan; !plan.final && plan.calls != []
      ensures pass.Stop? ==> Ended(pass.end)
    {
      var env := db.env;
      match env.agent.value(state)
      case Raised(message) =>
        var end := Fail(Infra, EngineError(message));
        return Stop(end);
      case Planned(plan) =>
        if WouldExceed(env.job.cap, TotalCost(steps), plan.cost) {
          var end := Fail(ErrorClass.Budget, OVER_BUDGET);
          return Stop(end);
        }
        var ok := CommitStep(CommitPlan(plan), PlanStep(plan.content, plan.calls), None, None, plan.cost,
                             if plan.IsFinal() then CommitFinal(plan) else LoopTop);
        if !ok {
          return Stop(Refused);
        }
        if plan.IsFinal() {
          var end := Succeed(plan);
          return Stop(end);
        }
        LastIsPlan(env.job, steps, db.world.db.rows);
        return Completed;
    }

    /** From a fresh snapshot: stop a runaway, execute what is pending, or plan. */
    method Proceed(steps: seq<Row>, state: State, pending: seq<ToolCall>) returns (pass: Pass)
      requires db.env.agent.Some? && state == StateOf(db.env.job, steps) && pending == PendingCalls(db.env.job, steps)
      requires InPass(AfterLoad(db.env, steps, pending), steps, pending) && steps <= db.world.db.rows
      modifies this, db
      ensures old(db.history) <= db.history && loaded.attempt == old(loaded.attempt)
      ensures pass.Completed? ==> At(LoopTop) && GoesDown(db.env.job, db.env.maxSteps, steps, db.world.db.rows)
      ensures pass.Stop? ==> Ended(pass.end)
    {
      if PlanCount(steps) >= db.env.maxSteps {
        var end := Fail(Infra, MAX_STEPS);
        return Stop(end);
      }
      if pending == [] {
        pass := PlanNext(steps, state);
        return;
      }
      pass := ExecutePending(steps, pending);
      if pass.Completed? {
        PassPays(db.env.job, steps, db.world.db.rows);
      }
    }

    /** Look for a cancellation. */
    method HeedCancel() returns (pass: Pass)
      requires At(CheckCancel)
      modifies this, db
      ensures old(db.history) <= db.history && loaded.attempt == old(loaded.attempt)
      ensures pass.Completed? ==> At(LoadLedger) && old(db.world.db.rows) <= db.world.db.rows && !run.cancel
      ensures pass.Stop? ==> Ended(pass.end)
    {
      RefreshCancel();
      if run.cancel {
        var end := Fail(Cancelled, CANCELLED);
        return Stop(end);
      }
      return Completed;
    }

    /** Renew the lease and look for a cancellation. */
    method Renew() returns (pass: Pass)
      requires At(LoopTop)
      modifies this, db
      ensures old(db.history) <= db.history && loaded.attempt == old(loaded.attempt)
      ensures pass.Completed? ==> At(LoadLedger) && old(db.world.db.rows) <= db.world.db.rows && !run.cancel
      ensures pass.Stop? ==> Ended(pass.end)
    {
      var owned := Heartbeat();
      if !owned {
        return Stop(LeaseLost);
      }
      pass := HeedCancel();
    }

    /** Renew the lease, look for a cancellation, and load the ledger. */
    method Begin() returns (pass: Pass, steps: seq<Row>, state: State, pending: seq<ToolCall>)
      requires At(LoopTop) && db.env.agent.Some?
      modifies this, db
      ensures old(db.history) <= db.history && loaded.attempt == old(loaded.attempt)
      ensures pass.Completed? ==>
                && InPass(AfterLoad(db.env, steps, pending), steps, pending)
                && old(db.world.db.rows) <= steps <= db.world.db.rows
                && state == StateOf(db.env.job, steps) && pending == PendingCalls(db.env.job, steps)
      ensures pass.Stop? ==> Ended(pass.end)
    {
      steps, state, pending := [], State("", Null, []), [];
      pass := Renew();
      if pass.Completed? {
        steps, state, pending := LoadSteps();
      }
    }

    /** One turn of the loop: from a fresh snapshot, execute or plan. */
    method Turn() returns (pass: Pass)
      requires At(LoopTop) && db.env.agent.Some?
      modifies this, db
      ensures old(db.history) <= db.history && loaded.attempt == old(loaded.attempt)
      ensures pass.Completed? ==>
                At(LoopTop) && GoesDown(db.env.job, db.env.maxSteps, old(db.world.db.rows), db.world.db.rows)
      ensures pass.Stop? ==> Ended(pass.end)
    {
      var steps, state, pending;
      pass, steps, state, pending := Begin();
      if pass.Completed? {
        pass := Proceed(steps, state, pending);
        if pass.Completed? {
          GoesDownFrom(db.env.job, db.env.maxSteps, old(db.world.db.rows), steps, db.world.db.rows);
        }
      }
    }

    /** Drive the run until it is finished, parked or lost. It ends, whatever the other sessions do meanwhile: each turn
        records a plan, of which there are finitely many, or the observations the last plan still owes. */
    method ExecuteRun() returns (end: End)
      requires At(Loaded)
      modifies this, db
      ensures old(db.history) <= db.history && Ended(end) && loaded.attempt == old(loaded.attempt)
    {
      if db.env.agent.None? {
        var s := db.world.sessions[sid];
        Goto(Loaded, CommitError(Infra, UnknownAgent(db.env.job.agentRef)), s.steps, s.pending);
        end := Fail(Infra, UnknownAgent(db.env.job.agentRef));
        return;
      }
      run := run.(status := Running);
      Commit(Loaded, LoopTop);
      while true
        invariant At(LoopTop) && old(db.history) <= db.history && loaded.attempt == old(loaded.attempt)
        decreases db.env.maxSteps - PlanCount(db.world.db.rows), |PendingCalls(db.env.job, db.world.db.rows)|
      {
        var pass := Turn();
        if pass.Stop? {
          return pass.end;
        }
      }
    }
  }

  /** Session `sid` has just read the run as it was then. */
  ghost predicate Reloads(history: seq<World>, n: nat, sid: nat)
    requires n < |history|
  {
    && sid < |history[n].sessions| && history[n].sessions[sid].pc == Loaded
    && history[n].sessions[sid].local == history[n].db.run
  }

  /** Reload the claimed run in a fresh database session, and drive it. */
  method Drive(db: Database, workerId: Worker, sid: nat) returns (end: End)
    requires db.Started()
    requires sid < |db.world.sessions| && db.world.sessions[sid].pc == Claimed && db.world.sessions[sid].worker == workerId
    modifies db
    ensures db.Started() && old(db.history) <= db.history
    ensures StopsLast(db.schedule, db.history, sid) && EndsAs(db.env, db.history, sid, end)
    ensures exists n :: |old(db.schedule)| < n < |db.history| && Reloads(db.history, n, sid)
  {
    db.ElapseAround(sid);
    var d, s := db.world.db, db.world.sessions[sid];
    var task := new Executor(db, sid, workerId, d.run);
    db.Transact(sid, d.now, Returned(Null), d, s.(local := d.run, base := d.run.cursor, pc := Loaded));
    ghost var n := |db.schedule|;
    assert Reloads(db.history, n, sid);
    end := task.ExecuteRun();
    assert Reloads(db.history, n, sid);
  }

  /** The reason a tick has for doing nothing. Every round it made was lost: the run had no attempt left and was buried for
      it, or, without row locks, was moved between the look and the update. And after that the run was not runnable, or the
      rounds were used up. */
  ghost predicate NothingToDo(env: Env, history: seq<World>, since: nat, rowLocks: bool)
    requires since < |history|
  {
    exists tries: seq<Try>, last: nat {:trigger GaveUp(env, history, since, history[since].db.now, tries, last)} ::
      && GaveUp(env, history, since, history[since].db.now, tries, last)
      && (rowLocks ==> forall i :: 0 <= i < |tries| ==> tries[i].looked == tries[i].updated)
  }

  method ClaimNext(db: Database, workerId: Worker, rowLocks: bool) returns (claimed: Option<nat>)
    requires db.Valid() && CandidatesOk(db.start.db)
    modifies db
    ensures db.Valid() && old(db.history) <= db.history
    ensures claimed.None? ==> NothingToDo(db.env, db.history, |old(db.schedule)|, rowLocks)
    ensures claimed.Some? ==>
              && |db.schedule| > |old(db.schedule)| && StartedAt(db.history, |db.schedule|, claimed.value, workerId)
  {
    var won;
    ghost var tries, last;
    if rowLocks {
      won, tries, last := ClaimLocked(db, workerId);
    } else {
      won, tries, last := ClaimBySwap(db, workerId);
    }
    if !won {
      assert GaveUp(db.env, db.history, |old(db.schedule)|, old(db.world.db.now), tries, last);
      return None;
    }
    return Some(|db.world.sessions| - 1);
  }

  /** The `n`-th action was a claim by `worker`, which started session `sid`. */
  ghost predicate StartedAt(history: seq<World>, n: nat, sid: nat, worker: Worker)
    requires 0 < n < |history|
  {
    && |history[n - 1].sessions| == sid && |history[n].sessions| == sid + 1
    && history[n].sessions[sid].pc == Claimed && history[n].sessions[sid].worker == worker
  }

  /** Claim at most one run and drive it: `claimed` is the session that claimed it, and it ended by its own steps. */
  method TickOnce(db: Database, workerId: Worker, rowLocks: bool) returns (claimed: Option<nat>)
    requires db.Started()
    modifies db
    ensures db.Started() && old(db.history) <= db.history
    ensures claimed.None? ==> NothingToDo(db.env, db.history, |old(db.schedule)|, rowLocks)
    ensures claimed.Some? ==>
              && StopsLast(db.schedule, db.history, claimed.value)
              && (exists end :: EndsAs(db.env, db.history, claimed.value, end))
              && exists n :: |old(db.schedule)| < n <= |db.schedule| && StartedAt(db.history, n, claimed.value, workerId)
  {
    claimed := ClaimNext(db, workerId, rowLocks);
    if claimed.Some? {
      ghost var n := |db.schedule|;
      var end := Drive(db, workerId, claimed.value);
      assert StartedAt(db.history, n, claimed.value, workerId);
    }
  }

  // ---------------------------------------------------------------------------
  // Why the loop ends
  // ---------------------------------------------------------------------------

  lemma LastIsObserved(rows: seq<Row>, key: Key)
    requires rows != [] && rows[|rows| - 1].body.Observation? && rows[|rows| - 1].key == Some(key)
    ensures key in Observed(rows)
  {
  }

  lemma {:induction false} UnobservedShrinks(job: Job, calls: seq<ToolCall>, seen: set<Key>, later: set<Key>)
    requires seen <= later
    ensures |Unobserved(job, calls, later)| <= |Unobserved(job, calls, seen)|
  {
    if calls != [] {
      UnobservedShrinks(job, calls[1..], seen, later);
    }
  }

  /** Longer ledgers have no fewer plans, and with as many plans no more calls are owed. */
  lemma {:induction false} FoldGoesOn(job: Job, rows: seq<Row>, more: seq<Row>)
    requires rows <= more
    ensures PlanCount(rows) <= PlanCount(more)
    ensures PlanCount(rows) == PlanCount(more) ==>
              && (LastCalls(more) == LastCalls(rows) || LastCalls(more) == [])
              && |PendingCalls(job, more)| <= |PendingCalls(job, rows)|
  {
    if |rows| < |more| {
      var init := more[..|more| - 1];
      FoldGoesOn(job, rows, init);
      ObservedMonotone(init, more);
      UnobservedShrinks(job, LastCalls(init), Observed(init), Observed(more));
    } else {
      assert rows == more;
    }
  }

  lemma {:induction false} NothingUnobserved(job: Job, calls: seq<ToolCall>, seen: set<Key>)
    requires forall c :: c in calls ==> KeyOf(job, c) in seen
    ensures Unobserved(job, calls, seen) == []
  {
    if calls != [] {
      NothingUnobserved(job, calls[1..], seen);
    }
  }

  ghost predicate AllObserved(job: Job, calls: seq<ToolCall>, rows: seq<Row>) {
    forall c :: c in calls ==> KeyOf(job, c) in Observed(rows)
  }

  lemma OneMoreObserved(job: Job, calls: seq<ToolCall>, i: nat, rows: seq<Row>, more: seq<Row>)
    requires i < |calls| && rows <= more && AllObserved(job, calls[..i], rows)
    requires KeyOf(job, calls[i]) in Observed(more)
    ensures AllObserved(job, calls[..i + 1], more)
  {
    ObservedMonotone(rows, more);
    assert calls[..i + 1] == calls[..i] + [calls[i]];
  }

  /** Plans left, then calls owed, in lexicographic order. */
  predicate GoesDown(job: Job, maxSteps: int, rows: seq<Row>, more: seq<Row>) {
    && PlanCount(rows) < maxSteps
    && (PlanCount(rows) < PlanCount(more)
        || (PlanCount(rows) == PlanCount(more) && |PendingCalls(job, more)| < |PendingCalls(job, rows)|))
  }

  lemma GoesDownFrom(job: Job, maxSteps: int, rows: seq<Row>, steps: seq<Row>, more: seq<Row>)
    requires rows <= steps && GoesDown(job, maxSteps, steps, more)
    ensures GoesDown(job, maxSteps, rows, more)
  {
    FoldGoesOn(job, rows, steps);
  }

  /** A completed pass leaves no call of its plan pending. */
  lemma PassPays(job: Job, steps: seq<Row>, rows: seq<Row>)
    requires steps <= rows && AllObserved(job, PendingCalls(job, steps), rows)
    ensures PlanCount(steps) < PlanCount(rows) || (PlanCount(steps) == PlanCount(rows) && PendingCalls(job, rows) == [])
  {
    FoldGoesOn(job, steps, rows);
    ObservedMonotone(steps, rows);
    if PlanCount(steps) == PlanCount(rows) && LastCalls(rows) == LastCalls(steps) {
      forall c | c in LastCalls(rows)
        ensures KeyOf(job, c) in Observed(rows)
      {
        if KeyOf(job, c) !in Observed(steps) {
          assert c in PendingCalls(job, steps);
        }
      }
      NothingUnobserved(job, LastCalls(rows), Observed(rows));
    }
  }

  lemma LastIsPlan(job: Job, steps: seq<Row>, rows: seq<Row>)
    requires |steps| < |rows| && steps <= rows && rows[|rows| - 1].body.PlanStep?
    ensures PlanCount(steps) < PlanCount(rows)
  {
    FoldGoesOn(job, steps, rows[..|rows| - 1]);
  }
}
