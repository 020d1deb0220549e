/** The second tier: what holds when every session acts within the lease it last wrote. The run row's status is then
    written by one session at a time, terminal statuses are final, and no run is stuck. */
module Timed {
  import opened Values
  import opened Models
  import opened Rebuild
  import opened Protocol
  import opened LedgerInvariant
  import opened Blocks
  import opened Approvals
  import opened Shared

  /** A session acts only before the expiry it last wrote. */
  predicate Punctual(w: World, a: Action) {
    Moves(w, a) ==> w.db.now <= w.sessions[a.sid].lease
  }

  /** A compare-and-swap that buries a leased run finds the lease its candidate had. Its guard does not look at the
      lease; see PunctualIsTimely for when it need not. */
  predicate BuriesAsSeen(env: Env, w: World, a: Action) {
    a.SwapBury? && SwapBuries(env, w.db, a.n) && Working(w.db.run.status) ==> w.db.run.expiry == w.db.looked[a.n].row.expiry
  }

  predicate Timely(env: Env, w: World, a: Action) {
    Punctual(w, a) && BuriesAsSeen(env, w, a)
  }

  predicate AllTimely(env: Env, w: World, schedule: seq<Action>) {
    schedule == [] ||
    (AllTimely(env, w, schedule[..|schedule| - 1])
     && Timely(env, Run(env, FULL, w, schedule[..|schedule| - 1]), schedule[|schedule| - 1]))
  }

  /** A session that may still act. */
  predicate Live(db: Db, s: Session) {
    !s.pc.Stopped? && db.now <= s.lease
  }

  predicate Working(status: Status) {
    status == Leased || status == Running
  }

  /** The session's copy of the run row is the row itself, up to a cancellation it has not looked at. */
  predicate Synced(db: Db, s: Session) {
    s.local.(cancel := db.run.cancel) == db.run
  }

  /** A live session owns the run, and knows it. */
  predicate Owns(db: Db, s: Session) {
    && Working(db.run.status) && db.run.owner == Some(s.worker) && db.run.expiry == Some(s.lease)
    && (!s.pc.Claimed? ==> Synced(db, s))
    && (s.pc.CommitParked? ==> AnyOpen(db.approvals))
  }

  /** What the status of a run says about its row and its ledger. */
  predicate StatusOk(start: nat, db: Db) {
    var run, n := db.run, |db.rows|;
    && run.status != Paused
    && (if Working(run.status) then run.owner.Some? && run.expiry.Some? else run.owner == None && run.expiry == None)
    && (run.status == ApprovalWait ==> AnyOpen(db.approvals))
    && (run.status == Succeeded ==>
          n > start && db.rows[n - 1].body.FinalStep? && run.output == Some(WrapOutput(db.rows[n - 1].body.output)))
    && (run.status == Failed ==>
          || (run.error == Some(Cancelled) && run.output == Some(ErrorResult(NOT_STARTED)))
          || (n > start && db.rows[n - 1].body.ErrorStep? && run.error == Some(db.rows[n - 1].body.class_)
              && run.output == Some(ErrorResult(db.rows[n - 1].body.detail))))
  }

  ghost predicate TimedInv(env: Env, start: nat, w: World) {
    && Inv(env, start, w) && StatusOk(start, w.db) && CandidatesOk(w.db)
    && (forall k :: 0 <= k < |w.sessions| - 1 ==> !Live(w.db, w.sessions[k]))
    && (w.sessions != [] && Live(w.db, w.sessions[|w.sessions| - 1]) ==> Owns(w.db, w.sessions[|w.sessions| - 1]))
  }

  // ---------------------------------------------------------------------------
  // Preservation
  // ---------------------------------------------------------------------------

  lemma FlushSynced(db: Db, s: Session, wanted: RunRow)
    requires Synced(db, s) && wanted.cancel == s.local.cancel
    ensures Flush(db.run, s.local, wanted) == wanted.(cancel := db.run.cancel)
  {
  }

  /** A live session is current: nobody else writes. */
  lemma OwnerIsCurrent(env: Env, start: nat, db: Db, s: Session)
    requires DbOk(env, start, db) && Owns(db, s) && !s.pc.Claimed?
    ensures Current(db, s)
  {
  }

  predicate EndsRunRow(pc: Pc) {
    pc.CommitSucceeded? || pc.CommitFailed? || pc.CommitParked?
  }

  /** The last write of a session: it lets go of the run and leaves the status the ledger calls for. */
  lemma EndKeepsTimed(env: Env, start: nat, db: Db, s: Session, sid: nat, asOf: Time, outcome: Outcome)
    requires DbOk(env, start, db) && SessionOk(env, start, db, s) && Owns(db, s) && EndsRunRow(s.pc)
    ensures var (db', s') := StepSession(env, FULL, db, s, sid, asOf, outcome);
            s'.pc.Stopped? && StatusOk(start, db') && db'.now == db.now
  {
    OwnerIsCurrent(env, start, db, s);
    match s.pc
    case CommitSucceeded(output) =>
      FlushSynced(db, s, Released(s.local, Succeeded).(output := Some(WrapOutput(output))));
    case CommitFailed(class_, detail) =>
      FlushSynced(db, s, Released(s.local, Failed).(error := Some(class_), output := Some(ErrorResult(detail))));
    case CommitParked => FlushSynced(db, s, Released(s.local, ApprovalWait));
  }

  lemma LeaseStepKeepsTimed(env: Env, start: nat, db: Db, s: Session, sid: nat, asOf: Time, outcome: Outcome)
    requires DbOk(env, start, db) && SessionOk(env, start, db, s) && Owns(db, s) && StatusOk(start, db)
    requires s.pc.Claimed? || s.pc.Loaded? || s.pc.LoopTop? || s.pc.CheckCancel?
    ensures var (db', s') := StepSession(env, FULL, db, s, sid, asOf, outcome);
            StatusOk(start, db') && (!s'.pc.Stopped? ==> Owns(db', s')) && db'.now == db.now
  {
    if s.pc.Loaded? {
      FlushSynced(db, s, s.local.(status := Running));
    }
  }

  /** Steps within a pass leave the run row's lease and status alone. */
  lemma PassStepOnlyMoves(env: Env, db: Db, s: Session, sid: nat, asOf: Time, outcome: Outcome)
    requires s.pc.LoadLedger? || s.pc.NextCall? || s.pc.Dispatch? || s.pc.Stopped?
    ensures var (db', s') := StepSession(env, FULL, db, s, sid, asOf, outcome);
            && db'.run == db.run && db'.rows == db.rows && db'.approvals == db.approvals && db'.now == db.now
            && s'.local == s.local && s'.worker == s.worker && s'.lease == s.lease
            && !s'.pc.Claimed? && !s'.pc.CommitParked?
  {
  }

  lemma PassStepKeepsTimed(env: Env, start: nat, db: Db, s: Session, sid: nat, asOf: Time, outcome: Outcome)
    requires Owns(db, s) && StatusOk(start, db)
    requires s.pc.LoadLedger? || s.pc.NextCall? || s.pc.Dispatch? || s.pc.Stopped?
    ensures var (db', s') := StepSession(env, FULL, db, s, sid, asOf, outcome);
            StatusOk(start, db') && (!s'.pc.Stopped? ==> Owns(db', s')) && db'.now == db.now
  {
    PassStepOnlyMoves(env, db, s, sid, asOf, outcome);
  }

  lemma CommitStepOwns(env: Env, start: nat, db: Db, s: Session, sid: nat, row: Row, next: Pc)
    requires DbOk(env, start, db) && Owns(db, s) && !s.pc.Claimed? && StatusOk(start, db)
    requires row.seqNo == s.local.cursor + 1 && !next.Claimed? && !next.CommitParked?
    ensures var (db', s') := CommitStep(FULL, db, s, sid, row, next);
            StatusOk(start, db') && (!s'.pc.Stopped? ==> Owns(db', s')) && db'.now == db.now
  {
    FlushSynced(db, s, s.local.(cursor := s.local.cursor + 1));
  }

  lemma InsertKeepsTimed(env: Env, start: nat, db: Db, s: Session, sid: nat, asOf: Time, outcome: Outcome)
    requires DbOk(env, start, db) && SessionOk(env, start, db, s) && Owns(db, s) && StatusOk(start, db)
    requires Inserts(s.pc) && !s.pc.CommitWait?
    ensures var (db', s') := StepSession(env, FULL, db, s, sid, asOf, outcome);
            StatusOk(start, db') && (!s'.pc.Stopped? ==> Owns(db', s')) && db'.now == db.now
  {
    match s.pc
    case CommitPlan(plan) =>
      CommitStepOwns(env, start, db, s, sid, NewRow(s, PlanStep(plan.content, plan.calls), None, None, plan.cost),
                     if plan.IsFinal() then CommitFinal(plan) else LoopTop);
    case CommitFinal(plan) =>
      CommitStepOwns(env, start, db, s, sid, NewRow(s, FinalStep(plan.output), None, None, 0), CommitSucceeded(plan.output));
    case CommitError(class_, detail) =>
      CommitStepOwns(env, start, db, s, sid, NewRow(s, ErrorStep(class_, detail), None, None, 0), CommitFailed(class_, detail));
    case CommitObservation(i, result, cost) =>
      var call := s.pending[i];
      CommitStepOwns(env, start, db, s, sid,
                     NewRow(s, Observation(call.id, call.name, result), Some(call.id), Some(KeyOf(env.job, call)), cost),
                     NextCall(i + 1));
    case CommitIntent(i) =>
      var call := s.pending[i];
      CommitStepOwns(env, start, db, s, sid,
                     NewRow(s, IntentStep(call), Some(call.id), Some(Intent(KeyOf(env.job, call))), 0),
                     StartDispatch(env, i, env.tools[call.name] + 1));
  }

  lemma WaitKeepsTimed(env: Env, start: nat, db: Db, s: Session, sid: nat, asOf: Time, outcome: Outcome)
    requires DbOk(env, start, db) && SessionOk(env, start, db, s) && Owns(db, s) && StatusOk(start, db) && s.pc.CommitWait?
    ensures var (db', s') := StepSession(env, FULL, db, s, sid, asOf, outcome);
            StatusOk(start, db') && (!s'.pc.Stopped? ==> Owns(db', s')) && db'.now == db.now
  {
    var call := s.pending[s.pc.i];
    var row := NewRow(s, WaitStep(call), Some(call.id), None, 0);
    FlushSynced(db, s, s.local.(cursor := s.local.cursor + 1));
    var (db', s') := StepSession(env, FULL, db, s, sid, asOf, outcome);
    if s'.pc == CommitParked {
      assert db'.approvals[|db.approvals|].verdict == Verdict.Pending;
    }
  }

  lemma MoveKeepsTimed(env: Env, start: nat, db: Db, s: Session, sid: nat, asOf: Time, outcome: Outcome)
    requires DbOk(env, start, db) && SessionOk(env, start, db, s) && Owns(db, s) && StatusOk(start, db)
    ensures var (db', s') := StepSession(env, FULL, db, s, sid, asOf, outcome);
            StatusOk(start, db') && (!s'.pc.Stopped? ==> Owns(db', s')) && db'.now == db.now
  {
    if EndsRunRow(s.pc) {
      EndKeepsTimed(env, start, db, s, sid, asOf, outcome);
    } else if s.pc.CommitWait? {
      WaitKeepsTimed(env, start, db, s, sid, asOf, outcome);
    } else if Inserts(s.pc) {
      InsertKeepsTimed(env, start, db, s, sid, asOf, outcome);
    } else if s.pc.LoadLedger? || s.pc.NextCall? || s.pc.Dispatch? || s.pc.Stopped? {
      PassStepKeepsTimed(env, start, db, s, sid, asOf, outcome);
    } else {
      LeaseStepKeepsTimed(env, start, db, s, sid, asOf, outcome);
    }
  }

  /** Mutual exclusion: under timely leases only the session of the latest claim can act at all. */
  lemma OnlyLatestActs(env: Env, start: nat, w: World, a: Action)
    requires TimedInv(env, start, w) && Timely(env, w, a) && Moves(w, a) && !w.sessions[a.sid].pc.Stopped?
    ensures a.sid == |w.sessions| - 1 && Owns(w.db, w.sessions[a.sid])
  {
    assert Live(w.db, w.sessions[a.sid]);
  }

  lemma StoppedStepIsIdle(env: Env, schema: Schema, w: World, a: Action)
    requires Moves(w, a) && w.sessions[a.sid].pc.Stopped?
    ensures Next(env, schema, w, a) == w
  {
    assert w.sessions[a.sid := w.sessions[a.sid]] == w.sessions;
  }

  lemma OtherKeepsTimed(env: Env, start: nat, w: World, a: Action)
    requires TimedInv(env, start, w) && Timely(env, w, a) && !Moves(w, a) && !IsClaim(a) && !a.Resolve?
    requires Inv(env, start, Next(env, FULL, w, a))
    ensures TimedInv(env, start, Next(env, FULL, w, a))
  {
  }

  lemma ResolveKeepsTimed(env: Env, start: nat, w: World, a: Action)
    requires TimedInv(env, start, w) && a.Resolve? && Inv(env, start, Next(env, FULL, w, a))
    ensures TimedInv(env, start, Next(env, FULL, w, a))
  {
  }

  predicate IsClaim(a: Action) {
    a.Claim? || a.SwapClaim? || a.SwapBury?
  }

  /** What a claim can do: nothing, or bury or lease a run that is runnable at the time. */
  lemma ClaimDoes(env: Env, w: World, a: Action) returns (asOf: Time)
    requires IsClaim(a) && CandidatesOk(w.db) && BuriesAsSeen(env, w, a)
    ensures var w' := Next(env, FULL, w, a);
            var w1 := w.(db := w.db.(used := w'.db.used));
            || w' == w1
            || (asOf <= w.db.now && Runnable(w.db.run, asOf)
                && (|| w' == w1.(db := w1.db.(run := Bury(w.db.run)))
                    || (!a.SwapBury? && w' == Lease(env, w1, a.worker, asOf))))
  {
    asOf := if a.Claim? then a.asOf else if a.n < |w.db.looked| then w.db.looked[a.n].asOf else 0;
  }

  /** A run is claimed only once its last session has run out of time. */
  lemma RunnableIsAbandoned(env: Env, start: nat, w: World, asOf: Time, k: nat)
    requires TimedInv(env, start, w) && asOf <= w.db.now && Runnable(w.db.run, asOf) && k < |w.sessions|
    ensures !Live(w.db, w.sessions[k])
  {
  }

  lemma LeaseKeepsTimed(env: Env, start: nat, w: World, worker: Worker, asOf: Time)
    requires Inv(env, start, Lease(env, w, worker, asOf)) && StatusOk(start, w.db) && CandidatesOk(w.db)
    requires forall k :: 0 <= k < |w.sessions| ==> !Live(w.db, w.sessions[k])
    ensures TimedInv(env, start, Lease(env, w, worker, asOf))
  {
    var w' := Lease(env, w, worker, asOf);
    forall k | 0 <= k < |w'.sessions| - 1
      ensures !Live(w'.db, w'.sessions[k])
    {
      assert !Live(w.db, w.sessions[k]);
    }
  }

  lemma BuryKeepsTimed(env: Env, start: nat, w: World)
    requires Inv(env, start, w.(db := w.db.(run := Bury(w.db.run)))) && CandidatesOk(w.db)
    requires forall k :: 0 <= k < |w.sessions| ==> !Live(w.db, w.sessions[k])
    ensures TimedInv(env, start, w.(db := w.db.(run := Bury(w.db.run))))
  {
    var w' := w.(db := w.db.(run := Bury(w.db.run)));
    forall k | 0 <= k < |w'.sessions|
      ensures !Live(w'.db, w'.sessions[k])
    {
      assert !Live(w.db, w.sessions[k]);
    }
  }

  lemma ClaimKeepsTimed(env: Env, start: nat, w: World, a: Action)
    requires TimedInv(env, start, w) && Timely(env, w, a) && IsClaim(a) && Inv(env, start, Next(env, FULL, w, a))
    ensures TimedInv(env, start, Next(env, FULL, w, a))
  {
    var asOf := ClaimDoes(env, w, a);
    var w' := Next(env, FULL, w, a);
    var w1 := w.(db := w.db.(used := w'.db.used));
    if w' != w1 {
      forall k | 0 <= k < |w.sessions|
        ensures !Live(w1.db, w1.sessions[k])
      {
        RunnableIsAbandoned(env, start, w, asOf, k);
      }
      if w' == w1.(db := w1.db.(run := Bury(w.db.run))) {
        BuryKeepsTimed(env, start, w1);
      } else {
        LeaseKeepsTimed(env, start, w1, a.worker, asOf);
      }
    }
  }

  lemma NextKeepsTimed(env: Env, start: nat, w: World, a: Action)
    requires TimedInv(env, start, w) && Timely(env, w, a)
    ensures TimedInv(env, start, Next(env, FULL, w, a))
  {
    NextKeepsInv(env, start, w, a);
    if Moves(w, a) {
      if w.sessions[a.sid].pc.Stopped? {
        StoppedStepIsIdle(env, FULL, w, a);
      } else {
        OnlyLatestActs(env, start, w, a);
        assert SessionOk(env, start, w.db, w.sessions[a.sid]);
        MoveKeepsTimed(env, start, w.db, w.sessions[a.sid], a.sid, a.asOf, a.outcome);
        StepKeepsLooked(env, w.db, w.sessions[a.sid], a.sid, a.asOf, a.outcome);
      }
    } else if IsClaim(a) {
      ClaimKeepsTimed(env, start, w, a);
    } else if a.Resolve? {
      ResolveKeepsTimed(env, start, w, a);
    } else {
      OtherKeepsTimed(env, start, w, a);
    }
  }

  lemma {:induction false} AlwaysTimed(env: Env, now: Time, rows: seq<Row>, schedule: seq<Action>)
    requires StartOk(env.job, rows) && AllTimely(env, Enqueued(now, rows), schedule)
    ensures TimedInv(env, |rows|, Run(env, FULL, Enqueued(now, rows), schedule))
  {
    if schedule != [] {
      AlwaysTimed(env, now, rows, schedule[..|schedule| - 1]);
      NextKeepsTimed(env, |rows|, Run(env, FULL, Enqueued(now, rows), schedule[..|schedule| - 1]),
                     schedule[|schedule| - 1]);
    }
  }

  // ---------------------------------------------------------------------------
  // What it gives
  // ---------------------------------------------------------------------------

  lemma AtMostOneLive(env: Env, start: nat, w: World, j: nat, k: nat)
    requires TimedInv(env, start, w) && j < k < |w.sessions| && Live(w.db, w.sessions[k])
    ensures !Live(w.db, w.sessions[j]) && k == |w.sessions| - 1 && w.db.run.owner == Some(w.sessions[k].worker)
  {
  }

  /** Of the sessions of a run at most one may act: two different live sessions never exist. */
  lemma MutualExclusion(env: Env, now: Time, rows: seq<Row>, schedule: seq<Action>, j: nat, k: nat)
    requires StartOk(env.job, rows) && AllTimely(env, Enqueued(now, rows), schedule)
    requires var w := Run(env, FULL, Enqueued(now, rows), schedule);
             j < k < |w.sessions| && Live(w.db, w.sessions[k])
    ensures var w := Run(env, FULL, Enqueued(now, rows), schedule);
            !Live(w.db, w.sessions[j]) && k == |w.sessions| - 1 && w.db.run.owner == Some(w.sessions[k].worker)
  {
    AlwaysTimed(env, now, rows, schedule);
    AtMostOneLive(env, |rows|, Run(env, FULL, Enqueued(now, rows), schedule), j, k);
  }

  /** How a run ended, as its row has it: an object or an array as it was answered, any other answer under `result`, and an
      error under `error`. */
  predicate EndIsRecorded(start: nat, db: Db) {
    && (db.run.status == Succeeded ==>
          && |db.rows| > start && db.rows[|db.rows| - 1].body.FinalStep?
          && var output := db.rows[|db.rows| - 1].body.output;
             db.run.output == Some(if output.Obj? || output.Arr? then output else Obj(map["result" := output])))
    && (db.run.status == Failed ==>
          || (db.run.error == Some(Cancelled)
              && db.run.output == Some(Obj(map["error" := Str("cancelled before start")])))
          || (|db.rows| > start && db.rows[|db.rows| - 1].body.ErrorStep?
              && db.run.error == Some(db.rows[|db.rows| - 1].body.class_)
              && db.run.output == Some(Obj(map["error" := Str(db.rows[|db.rows| - 1].body.detail)]))))
  }

  lemma StatusTellsEnd(start: nat, db: Db)
    requires StatusOk(start, db)
    ensures EndIsRecorded(start, db)
  {
  }

  /** `succeeded` means the ledger ends in a final step with the run's output; `failed` that it ends in the error
      recorded on the run, unless the run was cancelled before it started. */
  lemma StatusTellsLedger(env: Env, now: Time, rows: seq<Row>, schedule: seq<Action>)
    requires StartOk(env.job, rows) && AllTimely(env, Enqueued(now, rows), schedule)
    ensures StatusOk(|rows|, Run(env, FULL, Enqueued(now, rows), schedule).db)
    ensures EndIsRecorded(|rows|, Run(env, FULL, Enqueued(now, rows), schedule).db)
  {
    AlwaysTimed(env, now, rows, schedule);
    StatusTellsEnd(|rows|, Run(env, FULL, Enqueued(now, rows), schedule).db);
  }

  /** A terminal run never changes again: neither its row, nor its ledger, nor is anything dispatched. */
  lemma TerminalStays(env: Env, start: nat, w: World, a: Action)
    requires TimedInv(env, start, w) && Timely(env, w, a) && Terminal(w.db.run.status)
    ensures var db' := Next(env, FULL, w, a).db;
            db'.run == w.db.run && db'.rows == w.db.rows && db'.log == w.db.log
  {
    if Moves(w, a) {
      assert !Live(w.db, w.sessions[a.sid]);
      StoppedStepIsIdle(env, FULL, w, a);
    }
  }

  lemma {:induction false} TerminalIsFinal(env: Env, start: nat, w: World, schedule: seq<Action>)
    requires TimedInv(env, start, w) && AllTimely(env, w, schedule) && Terminal(w.db.run.status)
    ensures var w' := Run(env, FULL, w, schedule);
            TimedInv(env, start, w') && w'.db.run == w.db.run && w'.db.rows == w.db.rows && w'.db.log == w.db.log
  {
    if schedule != [] {
      TerminalIsFinal(env, start, w, schedule[..|schedule| - 1]);
      var before := Run(env, FULL, w, schedule[..|schedule| - 1]);
      NextKeepsTimed(env, start, before, schedule[|schedule| - 1]);
      TerminalStays(env, start, before, schedule[|schedule| - 1]);
    }
  }

  /** No run is stuck: one that is not terminal is queued, or will be claimable once the lease it carries has run out,
      or waits for an approval that can be resolved and then is queued. */
  lemma NeverStuck(env: Env, now: Time, rows: seq<Row>, schedule: seq<Action>)
    requires StartOk(env.job, rows) && AllTimely(env, Enqueued(now, rows), schedule)
    ensures var db := Run(env, FULL, Enqueued(now, rows), schedule).db;
            || Terminal(db.run.status)
            || db.run.status == Queued
            || (db.run.owner.Some? && db.run.expiry.Some?
                && forall asOf :: asOf > db.run.expiry.value ==> Runnable(db.run, asOf))
            || (forall verdict :: ResolveApproval(db, verdict).run.status == Queued)
  {
    AlwaysTimed(env, now, rows, schedule);
  }

  // ---------------------------------------------------------------------------
  // Clean reads from timely leases
  // ---------------------------------------------------------------------------

  /** No run is leased while an approval of it is open: nobody died between recording an approval and parking. */
  predicate CleanClaim(env: Env, w: World, a: Action) {
    Leases(env, w, a) ==> !AnyOpen(w.db.approvals)
  }

  predicate AllCleanClaims(env: Env, w: World, schedule: seq<Action>) {
    schedule == [] ||
    (AllCleanClaims(env, w, schedule[..|schedule| - 1])
     && CleanClaim(env, Run(env, FULL, w, schedule[..|schedule| - 1]), schedule[|schedule| - 1]))
  }

  /** Until it reads the run, a live session finds no approval open. */
  predicate ClaimedClean(w: World) {
    w.sessions != [] && Live(w.db, w.sessions[|w.sessions| - 1]) && w.sessions[|w.sessions| - 1].pc.Claimed? ==>
      !AnyOpen(w.db.approvals)
  }

  lemma IdleKeepsClaimedClean(env: Env, start: nat, w: World, a: Action)
    requires TimedInv(env, start, w) && Timely(env, w, a) && CleanClaim(env, w, a) && ClaimedClean(w) && !Moves(w, a)
    ensures ClaimedClean(Next(env, FULL, w, a))
  {
  }

  lemma NextKeepsClaimedClean(env: Env, start: nat, w: World, a: Action)
    requires TimedInv(env, start, w) && Timely(env, w, a) && CleanClaim(env, w, a) && ClaimedClean(w)
    ensures ClaimedClean(Next(env, FULL, w, a)) && CleanRead(w, a)
  {
    if Moves(w, a) {
      if w.sessions[a.sid].pc.Stopped? {
        StoppedStepIsIdle(env, FULL, w, a);
      } else {
        OnlyLatestActs(env, start, w, a);
        StepLeavesClaimed(env, FULL, w.db, w.sessions[a.sid], a.sid, a.asOf, a.outcome);
      }
    } else {
      IdleKeepsClaimedClean(env, start, w, a);
    }
  }

  lemma {:induction false} TimelyReadsAreClean(env: Env, now: Time, rows: seq<Row>, schedule: seq<Action>)
    requires StartOk(env.job, rows)
    requires AllTimely(env, Enqueued(now, rows), schedule) && AllCleanClaims(env, Enqueued(now, rows), schedule)
    ensures CleanReads(env, Enqueued(now, rows), schedule) && ClaimedClean(Run(env, FULL, Enqueued(now, rows), schedule))
  {
    if schedule != [] {
      var before := schedule[..|schedule| - 1];
      TimelyReadsAreClean(env, now, rows, before);
      AlwaysTimed(env, now, rows, before);
      NextKeepsClaimedClean(env, |rows|, Run(env, FULL, Enqueued(now, rows), before), schedule[|schedule| - 1]);
    }
  }

  // ---------------------------------------------------------------------------
  // Human approval
  // ---------------------------------------------------------------------------

  /** Under timely leases who dispatches holds the end of the ledger, so an overtaken session is no concern. */
  lemma StepIsConsented(env: Env, start: nat, db: Db, s: Session, sid: nat, asOf: Time, outcome: Outcome)
    requires SessionApproved(env, db, s) && Current(db, s) && LogApproved(env, db)
    ensures LogApproved(env, StepSession(env, FULL, db, s, sid, asOf, outcome).0)
  {
    var db' := StepSession(env, FULL, db, s, sid, asOf, outcome).0;
    RowAndSendOf(env, db, s, sid, asOf, outcome);
    StepApprovals(env, FULL, db, s, sid, asOf, outcome);
    if db'.approvals != db.approvals {
      var new_ :| db'.approvals == db.approvals + [new_];
      AppendKeeps(db.approvals, new_);
    }
  }

  lemma NextKeepsLogApproved(env: Env, start: nat, w: World, a: Action)
    requires TimedInv(env, start, w) && Timely(env, w, a) && ApprovalInv(env, start, w) && LogApproved(env, w.db)
    ensures LogApproved(env, Next(env, FULL, w, a).db)
  {
    if !Moves(w, a) {
      MovesOrIdle(env, FULL, w, a);
      IdleApprovals(env, FULL, w, a);
    } else if w.sessions[a.sid].pc.Stopped? {
      StoppedStepIsIdle(env, FULL, w, a);
    } else if w.sessions[a.sid].pc.Claimed? {
      RowAndSendOf(env, w.db, w.sessions[a.sid], a.sid, a.asOf, a.outcome);
      StepApprovals(env, FULL, w.db, w.sessions[a.sid], a.sid, a.asOf, a.outcome);
    } else {
      OnlyLatestActs(env, start, w, a);
      OwnerIsCurrent(env, start, w.db, w.sessions[a.sid]);
      StepIsConsented(env, start, w.db, w.sessions[a.sid], a.sid, a.asOf, a.outcome);
    }
  }

  lemma {:induction false} AlwaysConsentedTimely(env: Env, now: Time, rows: seq<Row>, schedule: seq<Action>)
    requires StartOk(env.job, rows)
    requires AllTimely(env, Enqueued(now, rows), schedule) && AllCleanClaims(env, Enqueued(now, rows), schedule)
    ensures LogApproved(env, Run(env, FULL, Enqueued(now, rows), schedule).db)
  {
    if schedule != [] {
      var before := schedule[..|schedule| - 1];
      AlwaysConsentedTimely(env, now, rows, before);
      AlwaysTimed(env, now, rows, before);
      TimelyReadsAreClean(env, now, rows, before);
      AlwaysApproved(env, now, rows, before);
      NextKeepsLogApproved(env, |rows|, Run(env, FULL, Enqueued(now, rows), before), schedule[|schedule| - 1]);
    }
  }

  /** Human approval under timely leases: as long as no worker dies between recording an approval and parking the run,
      a guarded call is dispatched only once its id is approved. */
  lemma TimelyApproval(env: Env, now: Time, rows: seq<Row>, schedule: seq<Action>, n: nat)
    requires StartOk(env.job, rows)
    requires AllTimely(env, Enqueued(now, rows), schedule) && AllCleanClaims(env, Enqueued(now, rows), schedule)
    requires n < |Run(env, FULL, Enqueued(now, rows), schedule).db.log|
    requires Guarded(env, Run(env, FULL, Enqueued(now, rows), schedule).db.log[n].call)
    ensures var db := Run(env, FULL, Enqueued(now, rows), schedule).db;
            FindApproval(db.approvals, db.log[n].call.id) == Some(Approved)
  {
    AlwaysConsentedTimely(env, now, rows, schedule);
  }

  // ---------------------------------------------------------------------------
  // Burying by compare-and-swap
  // ---------------------------------------------------------------------------

  predicate AllPunctual(env: Env, w: World, schedule: seq<Action>) {
    schedule == [] ||
    (AllPunctual(env, w, schedule[..|schedule| - 1])
     && Punctual(Run(env, FULL, w, schedule[..|schedule| - 1]), schedule[|schedule| - 1]))
  }

  lemma BuryingIdleRunIsSafe(env: Env, start: nat, w: World, n: nat)
    requires TimedInv(env, start, w) && SwapBuries(env, w.db, n)
    requires forall k :: 0 <= k < |w.sessions| ==> !Live(w.db, w.sessions[k])
    ensures TimedInv(env, start, Next(env, FULL, w, SwapBury(n)))
  {
    NextKeepsInv(env, start, w, SwapBury(n));
    BuryKeepsTimed(env, start, UseUp(w, n));
  }

  lemma BuryingLiveRunIsNot(env: Env, start: nat, w: World, n: nat, k: nat)
    requires SwapBuries(env, w.db, n) && k < |w.sessions| && Live(w.db, w.sessions[k])
    ensures !TimedInv(env, start, Next(env, FULL, w, SwapBury(n)))
  {
    var w' := Next(env, FULL, w, SwapBury(n));
    assert Live(w'.db, w'.sessions[k]) && !Owns(w'.db, w'.sessions[k]);
  }

  /** Exactly: burying a run by compare-and-swap keeps the invariant if and only if no session is at work on it. */
  lemma BuryingIsSafeIff(env: Env, start: nat, w: World, n: nat)
    requires TimedInv(env, start, w) && SwapBuries(env, w.db, n)
    ensures TimedInv(env, start, Next(env, FULL, w, SwapBury(n))) <==>
              forall k :: 0 <= k < |w.sessions| ==> !Live(w.db, w.sessions[k])
  {
    if forall k :: 0 <= k < |w.sessions| ==> !Live(w.db, w.sessions[k]) {
      BuryingIdleRunIsSafe(env, start, w, n);
    } else {
      var k :| 0 <= k < |w.sessions| && Live(w.db, w.sessions[k]);
      BuryingLiveRunIsNot(env, start, w, n, k);
    }
  }

  /** A claim past the limit on attempts, of a run that was leased or running. */
  predicate Retakes(env: Env, w: World, a: Action) {
    Overruns(env, w, a) && Working(w.db.run.status)
  }

  predicate NeverRetakes(env: Env, w: World, schedule: seq<Action>) {
    schedule == [] ||
    (NeverRetakes(env, w, schedule[..|schedule| - 1])
     && !Retakes(env, Run(env, FULL, w, schedule[..|schedule| - 1]), schedule[|schedule| - 1]))
  }

  /** A leased candidate without an attempt left stands for a run that nobody takes any more: it stays as it was read, or
      is over. */
  predicate Spent(env: Env, w: World, c: Candidate) {
    c.row.attempt >= env.maxAttempts && Working(c.row.status) ==>
      && c.row.attempt <= w.db.run.attempt
      && (forall k :: 0 <= k < |w.sessions| ==> !Live(w.db, w.sessions[k]))
      && (Terminal(w.db.run.status) || (w.db.run.status == c.row.status && w.db.run.expiry == c.row.expiry))
  }

  predicate AllSpent(env: Env, w: World) {
    forall n :: 0 <= n < |w.db.looked| ==> Spent(env, w, w.db.looked[n])
  }

  lemma DeadStaysDead(env: Env, start: nat, w: World, a: Action, k: nat)
    requires TimedInv(env, start, w) && Timely(env, w, a) && !Leases(env, w, a) && k < |w.sessions|
    requires forall j :: 0 <= j < |w.sessions| ==> !Live(w.db, w.sessions[j])
    ensures var w' := Next(env, FULL, w, a);
            && |w'.sessions| == |w.sessions| && !Live(w'.db, w'.sessions[k])
  {
    if Moves(w, a) {
      StoppedStepIsIdle(env, FULL, w, a);
    }
  }

  /** Nobody claims it: it has no attempt left for most claims, and the others would retake it. */
  lemma SpentIsNotLeased(env: Env, start: nat, w: World, a: Action, c: Candidate)
    requires TimedInv(env, start, w) && !Retakes(env, w, a) && Spent(env, w, c)
    requires c.row.attempt >= env.maxAttempts && Working(c.row.status)
    ensures !Leases(env, w, a)
  {
    if a.SwapClaim? && SwapWins(env, w.db, a.n) {
      assert Runnable(w.db.looked[a.n].row, w.db.looked[a.n].asOf);
    }
  }

  /** With nobody live and no lease, only a handler or a burial touches the run row, and neither touches a lease. */
  lemma AbandonedStays(env: Env, start: nat, w: World, a: Action)
    requires TimedInv(env, start, w) && Timely(env, w, a) && !Leases(env, w, a)
    requires forall j :: 0 <= j < |w.sessions| ==> !Live(w.db, w.sessions[j])
    requires Terminal(w.db.run.status) || Working(w.db.run.status)
    ensures var run' := Next(env, FULL, w, a).db.run;
            && run'.attempt == w.db.run.attempt
            && (Terminal(run'.status) || (run'.status == w.db.run.status && run'.expiry == w.db.run.expiry))
  {
    if Moves(w, a) {
      StoppedStepIsIdle(env, FULL, w, a);
    }
  }

  lemma StaysSpent(env: Env, start: nat, w: World, a: Action, c: Candidate)
    requires TimedInv(env, start, w) && Timely(env, w, a) && !Retakes(env, w, a) && Spent(env, w, c)
    ensures Spent(env, Next(env, FULL, w, a), c)
  {
    if c.row.attempt >= env.maxAttempts && Working(c.row.status) {
      SpentIsNotLeased(env, start, w, a, c);
      AbandonedStays(env, start, w, a);
      forall k | 0 <= k < |Next(env, FULL, w, a).sessions|
        ensures !Live(Next(env, FULL, w, a).db, Next(env, FULL, w, a).sessions[k])
      {
        DeadStaysDead(env, start, w, a, if k < |w.sessions| then k else 0);
      }
    }
  }

  /** A run looked at is abandoned. */
  lemma LookedIsSpent(env: Env, start: nat, w: World, asOf: Time)
    requires TimedInv(env, start, w) && asOf <= w.db.now && Runnable(w.db.run, asOf)
    ensures Spent(env, w, Candidate(w.db.run, asOf))
  {
    forall k | 0 <= k < |w.sessions|
      ensures !Live(w.db, w.sessions[k])
    {
      RunnableIsAbandoned(env, start, w, asOf, k);
    }
  }

  lemma NextKeepsSpent(env: Env, start: nat, w: World, a: Action)
    requires TimedInv(env, start, w) && Timely(env, w, a) && !Retakes(env, w, a) && AllSpent(env, w)
    ensures AllSpent(env, Next(env, FULL, w, a))
  {
    var w' := Next(env, FULL, w, a);
    if Moves(w, a) {
      StepKeepsLooked(env, w.db, w.sessions[a.sid], a.sid, a.asOf, a.outcome);
    }
    forall n | 0 <= n < |w'.db.looked|
      ensures Spent(env, w', w'.db.looked[n])
    {
      if n < |w.db.looked| {
        StaysSpent(env, start, w, a, w.db.looked[n]);
      } else {
        LookedIsSpent(env, start, w, a.asOf);
      }
    }
  }

  /** It is enough that sessions act within their leases, as long as no claim retakes a leased run past the limit on
      attempts: no compare-and-swap ever buries a run somebody is at work on, although its guard does not look at the
      lease. */
  lemma {:induction false} PunctualIsTimely(env: Env, now: Time, rows: seq<Row>, schedule: seq<Action>)
    requires StartOk(env.job, rows) && AllPunctual(env, Enqueued(now, rows), schedule)
    requires NeverRetakes(env, Enqueued(now, rows), schedule)
    ensures AllTimely(env, Enqueued(now, rows), schedule) && AllSpent(env, Run(env, FULL, Enqueued(now, rows), schedule))
  {
    if schedule != [] {
      var before, a := schedule[..|schedule| - 1], schedule[|schedule| - 1];
      PunctualIsTimely(env, now, rows, before);
      AlwaysTimed(env, now, rows, before);
      var w := Run(env, FULL, Enqueued(now, rows), before);
      if a.SwapBury? && SwapBuries(env, w.db, a.n) {
        assert Spent(env, w, w.db.looked[a.n]);
      }
      NextKeepsSpent(env, |rows|, w, a);
    }
  }
}
