/** Windows that need two workers or two calls: each by a schedule that gets there, next to the theorem it limits. */
module Races {
  import opened Values
  import opened Models
  import opened Rebuild
  import opened Protocol
  import opened LedgerInvariant
  import opened Approvals
  import opened Timed
  import opened Consent
  import opened Paths
  import opened Windows

  // ---------------------------------------------------------------------------
  // A claimer that slept through an approval
  // ---------------------------------------------------------------------------

  function OneAttemptEnv(): Env {
    GuardedEnv().(maxAttempts := 1)
  }

  /** Two claimers read the run when it was enqueued. Worker `a`, one of them, claims it and parks it for an approval,
      which comes. */
  lemma ApprovedAgain() returns (w: World, schedule: seq<Action>)
    ensures Leads(OneAttemptEnv(), GuardedStart(), schedule, w, IN_TIME)
    ensures [Look(0), Look(0), SwapClaim("a", 0)] <= schedule && w.db.used == {0} && w.db.now == 0
    ensures w.db.looked == [Candidate(GuardedStart().db.run, 0), Candidate(GuardedStart().db.run, 0)]
    ensures w.db.run.status == Queued && w.db.run.expiry == None && w.db.run.attempt == 1
    ensures w.db.approvals == [Approval(CALL, Approved)]
  {
    var env, w0 := OneAttemptEnv(), GuardedStart();
    OnePlanOk(env.job, w0.db.rows[0]);
    LeadsNowhere(env, w0, IN_TIME);
    var w1, s1 := Goes(env, w0, [], w0, IN_TIME, Look(0));
    var w2, s2 := Goes(env, w0, s1, w1, IN_TIME, Look(0));
    var w3, s3 := LoopStarts(env, w0, s2, w2, SwapClaim("a", 0), "a", IN_TIME);
    var w4, s4 := PassStarts(env, w0, s3, w3, IN_TIME);
    assert w4.sessions[0].pc == NextCall(0);
    var w5, s5 := Asks(env, w0, s4, w4, IN_TIME, 0);
    w, schedule := IsDecidedThen(env, w0, s5, w5, IN_TIME, CALL, true);
  }

  /** Two claimers that read the same row both win, every lease kept, and the second overruns the limit on attempts: the
      approval made the run look again as both had read it. See SecondSwapOfQueuedWinsIff and ClaimsBoundedIff. */
  lemma BothSwapsWin() returns (schedule: seq<Action>)
    ensures |schedule| > 3 && schedule[..3] == [Look(0), Look(0), SwapClaim("a", 0)]
    ensures schedule[|schedule| - 1] == SwapClaim("b", 1)
    ensures AllTimely(OneAttemptEnv(), GuardedStart(), schedule)
    ensures Leases(OneAttemptEnv(), Run(OneAttemptEnv(), FULL, GuardedStart(), schedule[..2]), schedule[2])
    ensures Overruns(OneAttemptEnv(), Run(OneAttemptEnv(), FULL, GuardedStart(), schedule[..|schedule| - 1]),
                     schedule[|schedule| - 1])
    ensures Run(OneAttemptEnv(), FULL, GuardedStart(), schedule).db.run.attempt > OneAttemptEnv().maxAttempts
  {
    var env, w0 := OneAttemptEnv(), GuardedStart();
    var w, s := ApprovedAgain();
    var w', s' := Goes(env, w0, s, w, IN_TIME, SwapClaim("b", 1));
    LeadsIsRun(env, w0, s, w, IN_TIME);
    LeadsIsRun(env, w0, s', w', IN_TIME);
    schedule := s';
    assert s'[..|s'| - 1] == s;
    BothLooked();
    assert s'[..2] == [Look(0), Look(0)];
  }

  lemma BothLooked()
    ensures Leases(OneAttemptEnv(), Run(OneAttemptEnv(), FULL, GuardedStart(), [Look(0), Look(0)]), SwapClaim("a", 0))
  {
    var env, w0 := OneAttemptEnv(), GuardedStart();
    LeadsNowhere(env, w0, IN_TIME);
    var w1, s1 := Goes(env, w0, [], w0, IN_TIME, Look(0));
    var w2, s2 := Goes(env, w0, s1, w1, IN_TIME, Look(0));
    assert s2 == [Look(0), Look(0)];
    LeadsIsRun(env, w0, s2, w2, IN_TIME);
  }

  // ---------------------------------------------------------------------------
  // A run enqueued in the middle of a guarded call
  // ---------------------------------------------------------------------------

  /** A fork whose ledger ends in the intent of a guarded call. */
  function IntentStart(): World {
    Enqueued(0, [Row(1, PlanStep("refund", [CALL]), None, None, 0, "w", 1),
                 Row(2, IntentStep(CALL), Some("c1"), Some(Intent(Call("run", CALL))), 0, "w", 1)])
  }

  lemma IntentStartOk()
    ensures var rows := IntentStart().db.rows;
            && StartOk(GuardedEnv().job, rows) && GapFree(rows) && Observed(rows) == {} && PlanCount(rows) == 1
            && PendingCalls(GuardedEnv().job, rows) == [CALL] && !NoIntentPending(GuardedEnv(), rows)
  {
    var job, rows := GuardedEnv().job, IntentStart().db.rows;
    OnePlanOk(job, rows[0]);
    OnePlanObserves(rows[0]);
    FoldAppend(job, [rows[0]], rows[1]);
    StartOkAppend(job, [rows[0]], rows[1]);
    assert rows == [rows[0]] + [rows[1]];
    assert rows[1].key == Some(Intent(KeyOf(job, CALL)));
    assert CALL in PendingCalls(job, rows) && Guarded(GuardedEnv(), CALL);
  }

  lemma OnePlanObserves(row: Row)
    requires row.body.PlanStep?
    ensures Observed([row]) == {} && LastCalls([row]) == row.body.calls && PlanCount([row]) == 1
  {
    assert [row][..0] == [];
  }

  /** Worker `a` reads the fork and stalls, worker `b` takes it over and asks for the approval. */
  lemma TwoAtTheIntent() returns (w: World, schedule: seq<Action>)
    ensures Leads(GuardedEnv(), IntentStart(), schedule, w, CLEAN)
    ensures |w.sessions| == 2 && w.sessions[0].pc == NextCall(0) && w.sessions[0].pending == [CALL]
    ensures w.sessions[0].steps == IntentStart().db.rows && w.db.now == 11
    ensures w.db.approvals == [Approval(CALL, Verdict.Pending)] && w.db.log == []
  {
    var env, w0 := GuardedEnv(), IntentStart();
    IntentStartOk();
    LeadsNowhere(env, w0, CLEAN);
    var w1, s1 := LoopStarts(env, w0, [], w0, Claim("a", w0.db.now), "a", CLEAN);
    var w2, s2 := PassStarts(env, w0, s1, w1, CLEAN);
    assert w2.sessions[0].pc == NextCall(0);
    var w3, s3 := Goes(env, w0, s2, w2, CLEAN, Tick(11));
    var w4, s4 := LoopStarts(env, w0, s3, w3, Claim("b", w3.db.now), "b", CLEAN);
    var w5, s5 := PassStarts(env, w0, s4, w4, CLEAN);
    assert w5.sessions[1].pc == NextCall(0);
    w, schedule := Asks(env, w0, s5, w5, CLEAN, 0);
  }

  /** Then `a` goes on, finds the new approval open and needs no insert before it dispatches: of the starting ledger,
      DispatchedOnlyIfApproved needs NoIntentPending. */
  lemma OvertakenWorkerDispatches() returns (schedule: seq<Action>)
    ensures StartOk(GuardedEnv().job, IntentStart().db.rows) && !NoIntentPending(GuardedEnv(), IntentStart().db.rows)
    ensures CleanReads(GuardedEnv(), IntentStart(), schedule)
    ensures var db := Run(GuardedEnv(), FULL, IntentStart(), schedule).db;
            && |db.log| == 1 && Guarded(GuardedEnv(), db.log[0].call)
            && FindApproval(db.approvals, db.log[0].call.id) == Some(Verdict.Pending)
  {
    var env, w0 := GuardedEnv(), IntentStart();
    IntentStartOk();
    var w1, s1 := TwoAtTheIntent();
    assert w1.sessions[0].steps[1].key == Some(Intent(KeyOf(env.job, CALL)));
    var w2, s2 := Goes(env, w0, s1, w1, CLEAN, Act(0, 11));
    assert w2.sessions[0].pc == Dispatch(0, 1);
    var w3, s3 := Goes(env, w0, s2, w2, CLEAN, Act(0, 11));
    assert w3.db.log[0].call == CALL;
    schedule := s3;
    LeadsIsRun(env, w0, s3, w3, CLEAN);
  }

  // ---------------------------------------------------------------------------
  // Two calls, one id
  // ---------------------------------------------------------------------------

  const DOUBLE := ToolCall("c1", "refund", map["twice" := Bool(true)])

  lemma TwoCalls()
    ensures CALL != DOUBLE && CALL.id == DOUBLE.id
  {
    assert "twice" in DOUBLE.arguments && "twice" !in CALL.arguments;
  }

  function SameIdStart(): World {
    Enqueued(0, [Row(1, PlanStep("refund", [CALL, DOUBLE]), None, None, 0, "w", 1)])
  }

  /** Worker `a` parks the run for the first call, which is approved. */
  lemma FirstIsApproved() returns (w: World, schedule: seq<Action>)
    ensures Leads(GuardedEnv(), SameIdStart(), schedule, w, WITH_CARE)
    ensures w.db.run == RunRow(Queued, 2, None, None, 1, false, None, None) && |w.sessions| == 1
    ensures w.db.rows == SameIdStart().db.rows + [Row(2, WaitStep(CALL), Some("c1"), None, 0, "a", 1)]
    ensures w.db.approvals == [Approval(CALL, Approved)] && w.db.log == [] && w.db.now == 0
  {
    var env, w0 := GuardedEnv(), SameIdStart();
    OnePlanOk(env.job, w0.db.rows[0]);
    LeadsNowhere(env, w0, WITH_CARE);
    var w1, s1 := LoopStarts(env, w0, [], w0, Claim("a", w0.db.now), "a", WITH_CARE);
    var w2, s2 := PassStarts(env, w0, s1, w1, WITH_CARE);
    assert w2.sessions[0].pc == NextCall(0);
    var w3, s3 := Asks(env, w0, s2, w2, WITH_CARE, 0);
    w, schedule := IsDecidedThen(env, w0, s3, w3, WITH_CARE, CALL, true);
  }

  /** Worker `b` reads the ledger. */
  lemma BothArePending() returns (w: World, schedule: seq<Action>)
    ensures Leads(GuardedEnv(), SameIdStart(), schedule, w, WITH_CARE) && AtCall(w, 0) && w.db.now == 0
    ensures |w.sessions| == 2 && w.sessions[1].pending == [CALL, DOUBLE] && w.sessions[1].steps == w.db.rows
    ensures |w.db.rows| == 2 && w.db.rows[0].key == None && w.db.rows[1].key == None
    ensures w.db.approvals == [Approval(CALL, Approved)] && w.db.log == [] && w.sessions[1].lease == 10
  {
    var env, w0 := GuardedEnv(), SameIdStart();
    var w1, s1 := FirstIsApproved();
    OnePlanOk(env.job, w0.db.rows[0]);
    FoldAppend(env.job, w0.db.rows, w1.db.rows[1]);
    var w2, s2 := LoopStarts(env, w0, s1, w1, Claim("b", w1.db.now), "b", WITH_CARE);
    w, schedule := PassStarts(env, w0, s2, w2, WITH_CARE);
  }

  /** It gets to dispatch the first call, under its own approval. */
  lemma FirstIsSent() returns (w: World, schedule: seq<Action>)
    ensures Leads(GuardedEnv(), SameIdStart(), schedule, w, WITH_CARE) && w.db.now == 0 && w.db.run.cursor == 3
    ensures |w.sessions| == 2 && w.sessions[1].pc == CommitObservation(0, Null, 0) && w.sessions[1].local == w.db.run
    ensures |w.db.rows| == 3 && GapFree(w.db.rows) && w.db.rows[0].key == None && w.db.rows[1].key == None
    ensures w.sessions[1].pending == [CALL, DOUBLE] && w.sessions[1].steps == w.db.rows[..2] && w.sessions[1].lease == 10
    ensures w.db.rows[2].key == Some(Intent(Call("run", CALL)))
    ensures w.db.approvals == [Approval(CALL, Approved)] && |w.db.log| == 1
  {
    var env, w0 := GuardedEnv(), SameIdStart();
    var w1, s1 := BothArePending();
    var w2, s2 := GetsToDispatch(env, w0, s1, w1, WITH_CARE, 0);
    w, schedule := Sends(env, w0, s2, w2, WITH_CARE, Returned(Null));
  }

  /** It records the result, and is at the second. */
  lemma FirstIsRun() returns (w: World, schedule: seq<Action>)
    ensures Leads(GuardedEnv(), SameIdStart(), schedule, w, WITH_CARE) && AtCall(w, 1) && w.db.now == 0
    ensures |w.sessions| == 2 && w.sessions[1].pending == [CALL, DOUBLE]
    ensures !HasKey(w.sessions[1].steps, Intent(Call("run", DOUBLE))) && !HasKey(w.db.rows, Intent(Call("run", DOUBLE)))
    ensures !HasObservation(w.sessions[1].steps, Call("run", DOUBLE))
    ensures w.db.approvals == [Approval(CALL, Approved)] && |w.db.log| == 1
  {
    var env, w0 := GuardedEnv(), SameIdStart();
    TwoCalls();
    var w1, s1 := FirstIsSent();
    w, schedule := Records(env, w0, s1, w1, WITH_CARE);
  }

  /** Then it runs the second under the approval of the first: nobody was ever asked about it. Leases are kept and no
      approval is open, so of DispatchedUnderOwnApprovalIff both sides fail. */
  lemma OtherCallIsDispatched() returns (schedule: seq<Action>)
    ensures AllTimely(GuardedEnv(), SameIdStart(), schedule) && AllCleanClaims(GuardedEnv(), SameIdStart(), schedule)
    ensures StartOk(GuardedEnv().job, SameIdStart().db.rows) && NoIntentPending(GuardedEnv(), SameIdStart().db.rows)
    ensures var db := Run(GuardedEnv(), FULL, SameIdStart(), schedule).db;
            && |db.log| == 2 && db.log[1].call == DOUBLE && Guarded(GuardedEnv(), DOUBLE)
            && !ApprovedItself(db.approvals, DOUBLE) && !HasApprovalFor(db.approvals, DOUBLE)
  {
    var env, w0 := GuardedEnv(), SameIdStart();
    OnePlanOk(env.job, w0.db.rows[0]);
    TwoCalls();
    var w1, s1 := FirstIsRun();
    var w2, s2 := GetsToDispatch(env, w0, s1, w1, WITH_CARE, 1);
    var w3, s3 := Sends(env, w0, s2, w2, WITH_CARE, Returned(Null));
    schedule := s3;
    LeadsIsRun(env, w0, s3, w3, WITH_CARE);
  }

  predicate HasApprovalFor(approvals: seq<Approval>, call: ToolCall) {
    exists i :: 0 <= i < |approvals| && approvals[i].call == call
  }
}
