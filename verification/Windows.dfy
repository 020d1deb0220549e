/** Where the guarantees end: windows between two commits, and writes no lease guards. Each is shown by a schedule that
    gets there; its exact condition is here, or in the module of the theorem it limits. */
module Windows {
  import opened Values
  import opened Models
  import opened Rebuild
  import opened Protocol
  import opened LedgerInvariant
  import opened Blocks
  import opened Approvals
  import opened Timed
  import opened Paths

  const DONE := Plan("done", [], true, Null, 0)

  function FinalEnv(): Env {
    Env(Job("run", "agent", Null, None), Some((state: State) => Planned(DONE)), (call: ToolCall) => Allow, map[],
        (value: Json) => 0, 10, 5, 3)
  }

  // ---------------------------------------------------------------------------
  // A worker that lost its lease before it wrote `running`
  // ---------------------------------------------------------------------------

  /** Does this session's next commit overwrite a run row with this status? It writes a status only if that differs from
      the one it loaded. */
  predicate Overwrites(env: Env, status: Status, s: Session) {
    match s.pc
    case Loaded => env.agent.Some? && s.local.status != Running && status != Running
    case CommitSucceeded(_) => s.local.status != Succeeded && status != Succeeded
    case CommitParked => s.local.status != ApprovalWait && status != ApprovalWait
    case CommitFailed(_, _) => s.local.status != Failed && status != Failed
    case _ => false
  }

  /** Without timely leases a terminal status changes exactly when a session that loaded another one commits its own:
      no claim, no handler and no other step touches it. */
  lemma TerminalChangesIff(env: Env, w: World, a: Action)
    requires Terminal(w.db.run.status) && CandidatesOk(w.db)
    ensures Next(env, FULL, w, a).db.run.status != w.db.run.status <==>
              Moves(w, a) && Overwrites(env, w.db.run.status, w.sessions[a.sid])
  {
    if Moves(w, a) {
      StepOverwrites(env, w.db, w.sessions[a.sid], a.sid, a.asOf, a.outcome);
    } else {
      OthersLeaveTerminal(env, w, a);
    }
  }

  lemma StepOverwrites(env: Env, db: Db, s: Session, sid: nat, asOf: Time, outcome: Outcome)
    requires Terminal(db.run.status)
    ensures StepSession(env, FULL, db, s, sid, asOf, outcome).0.run.status != db.run.status <==>
              Overwrites(env, db.run.status, s)
  {
    if Inserts(s.pc) {
      InsertKeepsStatus(env, db, s, sid, asOf, outcome);
    } else {
      CommitOverwrites(env, db, s, sid, asOf, outcome);
    }
  }

  lemma InsertKeepsStatus(env: Env, db: Db, s: Session, sid: nat, asOf: Time, outcome: Outcome)
    requires Inserts(s.pc)
    ensures StepSession(env, FULL, db, s, sid, asOf, outcome).0.run.status == db.run.status
  {
  }

  lemma CommitOverwrites(env: Env, db: Db, s: Session, sid: nat, asOf: Time, outcome: Outcome)
    requires Terminal(db.run.status) && !Inserts(s.pc)
    ensures StepSession(env, FULL, db, s, sid, asOf, outcome).0.run.status != db.run.status <==>
              Overwrites(env, db.run.status, s)
  {
  }

  lemma OthersLeaveTerminal(env: Env, w: World, a: Action)
    requires Terminal(w.db.run.status) && CandidatesOk(w.db) && !Moves(w, a)
    ensures Next(env, FULL, w, a).db.run.status == w.db.run.status
  {
  }

  /** Running, with no lease that could run out and no session at work. */
  ghost predicate Stuck(w: World) {
    && w.db.run.status == Running && w.db.run.expiry == None
    && forall k :: 0 <= k < |w.sessions| ==> w.sessions[k].pc == Stopped
  }

  /** A claimer read the run while it was running and out of attempts, and may still bury it. */
  predicate MayBury(env: Env, db: Db, n: nat) {
    Held(db, n) && db.looked[n].row.status == Running && db.looked[n].row.attempt >= env.maxAttempts
  }

  /** Nobody can look at a stuck run any more, so who may bury it is settled. */
  lemma StuckStays(env: Env, w: World, a: Action)
    requires Stuck(w) && CandidatesOk(w.db)
    ensures var w' := Next(env, FULL, w, a);
            && w'.db.looked == w.db.looked && w.db.used <= w'.db.used && CandidatesOk(w'.db)
            && (Stuck(w') <==> !(a.SwapBury? && MayBury(env, w.db, a.n)))
  {
    if Moves(w, a) {
      StoppedStepIsIdle(env, FULL, w, a);
    }
  }

  lemma {:induction false} StuckUnlessBuried(env: Env, w: World, schedule: seq<Action>)
    requires Stuck(w) && CandidatesOk(w.db)
    requires forall n :: !MayBury(env, w.db, n)
    ensures var w' := Run(env, FULL, w, schedule);
            Stuck(w') && CandidatesOk(w'.db) && forall n :: !MayBury(env, w'.db, n)
  {
    if schedule != [] {
      StuckUnlessBuried(env, w, schedule[..|schedule| - 1]);
      var w1, w' := Run(env, FULL, w, schedule[..|schedule| - 1]), Run(env, FULL, w, schedule);
      StuckStays(env, w1, schedule[|schedule| - 1]);
      forall n
        ensures !MayBury(env, w'.db, n)
      {
        assert !MayBury(env, w1.db, n);
      }
    }
  }

  ghost predicate StuckForever(env: Env, w: World) {
    forall schedule :: Stuck(Run(env, FULL, w, schedule))
  }

  lemma BuriedSomeday(env: Env, w: World, n: nat)
    requires Stuck(w) && CandidatesOk(w.db) && MayBury(env, w.db, n)
    ensures !StuckForever(env, w)
  {
    StuckStays(env, w, SwapBury(n));
    var schedule := [SwapBury(n)];
    assert schedule[..0] == [] && Run(env, FULL, w, []) == w;
    assert !Stuck(Run(env, FULL, w, schedule));
  }

  /** A stuck run stays stuck under every claim, cancellation and approval, for ever, if and only if no claimer still holds
      a candidate to bury it with: some schedule gets it out of this state exactly when one does. */
  lemma StuckForeverIff(env: Env, w: World)
    requires Stuck(w) && CandidatesOk(w.db)
    ensures StuckForever(env, w) <==> forall n :: !MayBury(env, w.db, n)
  {
    if forall n :: !MayBury(env, w.db, n) {
      forall schedule
        ensures Stuck(Run(env, FULL, w, schedule))
      {
        StuckUnlessBuried(env, w, schedule);
      }
    } else {
      var n :| MayBury(env, w.db, n);
      BuriedSomeday(env, w, n);
    }
  }

  /** Worker `b` takes the run over from `a` and finishes it, then `a` goes on: a finished run can be reopened, and is then
      stuck for good. */
  lemma StaleWorkerReopensRun() returns (schedule: seq<Action>, n: nat)
    ensures n <= |schedule|
    ensures Run(FinalEnv(), FULL, Enqueued(0, []), schedule[..n]).db.run.status == Succeeded
    ensures var w := Run(FinalEnv(), FULL, Enqueued(0, []), schedule); Stuck(w) && StuckForever(FinalEnv(), w)
  {
    var env, w0 := FinalEnv(), Enqueued(0, []);
    var w1, s1 := Stalls();
    var w2, s2 := LoopStarts(env, w0, s1, w1, Claim("b", w1.db.now), "b", ANYHOW);
    var w3, s3 := PassStarts(env, w0, s2, w2, ANYHOW);
    assert w3.sessions[1].pc == CommitPlan(DONE);
    var w4, s4 := Finishes(w3, s3);
    n := |s4|;
    var w5, s5 := Goes(env, w0, s4, w4, ANYHOW, Act(0, 11));
    assert w5.db.run.status == Running && w5.db.run.owner == None;
    var w6, s6 := Goes(env, w0, s5, w5, ANYHOW, Act(0, 11));
    schedule := s6;
    LeadsIsRun(env, w0, s4, w4, ANYHOW);
    LeadsIsRun(env, w0, s6, w6, ANYHOW);
    assert forall n :: !MayBury(env, w6.db, n);
    StuckForeverIff(env, w6);
    assert schedule[..n] == s4;
  }

  /** Worker `a` claims and loads the run and stalls until its lease has run out. */
  lemma Stalls() returns (w: World, schedule: seq<Action>)
    ensures Leads(FinalEnv(), Enqueued(0, []), schedule, w, ANYHOW)
    ensures w.db == Db(11, RunRow(Leased, 0, Some("a"), Some(10), 1, false, None, None), [], [], [], [], [], {})
    ensures w.sessions == [NewSession("a", w.db.run, 10).(pc := Loaded)]
  {
    var env, w0 := FinalEnv(), Enqueued(0, []);
    LeadsNowhere(env, w0, ANYHOW);
    var w1, s1 := Goes(env, w0, [], w0, ANYHOW, Claim("a", 0));
    var w2, s2 := Goes(env, w0, s1, w1, ANYHOW, Act(0, 0));
    w, schedule := Goes(env, w0, s2, w2, ANYHOW, Tick(11));
  }

  /** Worker `b` records its plan and finishes the run. */
  lemma Finishes(w1: World, s1: seq<Action>) returns (w: World, schedule: seq<Action>)
    requires Leads(FinalEnv(), Enqueued(0, []), s1, w1, ANYHOW) && |w1.sessions| == 2 && w1.db.rows == []
    requires w1.db.now == 11 && w1.db.run.owner == Some("b") && w1.db.run.status == Running
    requires w1.db.looked == [] && w1.db.used == {}
    requires w1.sessions[1].pc == CommitPlan(DONE) && w1.sessions[1].local == w1.db.run && w1.db.run.cursor == 0
    ensures Leads(FinalEnv(), Enqueued(0, []), schedule, w, ANYHOW)
    ensures w.db.run.status == Succeeded && w.db.run.owner == None && w.db.run.expiry == None && w.db.now == 11
    ensures |w.sessions| == 2 && w.sessions[0] == w1.sessions[0] && w.sessions[1].pc == Stopped
    ensures w.db.looked == [] && w.db.used == {}
  {
    var env, w0, act := FinalEnv(), Enqueued(0, []), Act(1, 11);
    var w2, s2 := Goes(env, w0, s1, w1, ANYHOW, act);
    assert w2.sessions[1].pc == CommitFinal(DONE);
    var w3, s3 := Goes(env, w0, s2, w2, ANYHOW, act);
    assert w3.sessions[1].pc == CommitSucceeded(Null);
    w, schedule := Goes(env, w0, s3, w3, ANYHOW, act);
  }

  /** Losing the lease does not keep a worker from committing a step: `a` asks the model, its lease runs out, `b` takes
      the run, and the plan of `a` still gets in. What decides is the cursor alone, see AcceptedIsCurrent. */
  lemma DisplacedWorkerCommits() returns (schedule: seq<Action>)
    ensures schedule != []
    ensures var before := Run(FinalEnv(), FULL, Enqueued(0, []), schedule[..|schedule| - 1]).db;
            before.run.owner == Some("b") && before.rows == []
    ensures var after := Run(FinalEnv(), FULL, Enqueued(0, []), schedule).db;
            |after.rows| == 1 && after.rows[0].body.PlanStep? && after.rows[0].worker == "a" && after.rows[0].attempt == 1
  {
    var env, w0 := FinalEnv(), Enqueued(0, []);
    LeadsNowhere(env, w0, ANYHOW);
    var w1, s1 := LoopStarts(env, w0, [], w0, Claim("a", w0.db.now), "a", ANYHOW);
    var w2, s2 := PassStarts(env, w0, s1, w1, ANYHOW);
    assert w2.sessions[0].pc == CommitPlan(DONE);
    var w3, s3 := Goes(env, w0, s2, w2, ANYHOW, Tick(11));
    var w4, s4 := Goes(env, w0, s3, w3, ANYHOW, Claim("b", 11));
    var w5, s5 := Goes(env, w0, s4, w4, ANYHOW, Act(0, 11));
    schedule := s5;
    LeadsIsRun(env, w0, s4, w4, ANYHOW);
    LeadsIsRun(env, w0, s5, w5, ANYHOW);
    assert schedule[..|schedule| - 1] == s4;
  }

  // ---------------------------------------------------------------------------
  // A crash between recording an approval and parking the run
  // ---------------------------------------------------------------------------

  const CALL := ToolCall("c1", "refund", map[])

  /** One guarded tool. */
  function GuardedEnv(): Env {
    Env(Job("run", "agent", Null, None), Some((state: State) => Planned(DONE)), (call: ToolCall) => RequireApproval,
        map["refund" := 0], (value: Json) => 0, 10, 5, 3)
  }

  /** The plan that asks for it is recorded. */
  function GuardedStart(): World {
    Enqueued(0, [Row(1, PlanStep("refund", [CALL]), None, None, 0, "w", 1)])
  }

  /** Worker `a` records the approval and dies before it parks the run. */
  lemma ApprovalRecorded() returns (w: World, schedule: seq<Action>)
    ensures Leads(GuardedEnv(), GuardedStart(), schedule, w, IN_TIME)
    ensures w.db.rows == GuardedStart().db.rows + [Row(2, WaitStep(CALL), Some("c1"), None, 0, "a", 1)]
    ensures w.db.approvals == [Approval(CALL, Verdict.Pending)] && w.db.log == [] && w.db.now == 0
    ensures w.db.run == RunRow(Running, 2, Some("a"), Some(10), 1, false, None, None)
    ensures |w.sessions| == 1 && w.sessions[0].pc == CommitParked
  {
    var env, w0 := GuardedEnv(), GuardedStart();
    OnePlanOk(env.job, w0.db.rows[0]);
    LeadsNowhere(env, w0, IN_TIME);
    var w1, s1 := LoopStarts(env, w0, [], w0, Claim("a", w0.db.now), "a", IN_TIME);
    var w2, s2 := PassStarts(env, w0, s1, w1, IN_TIME);
    assert w2.sessions[0].pc == NextCall(0);
    w, schedule := Asks(env, w0, s2, w2, IN_TIME, 0);
  }

  /** What the engine checks, exactly: a guarded call goes on towards execution if and only if an approval row exists
      and is not rejected. An open approval passes; whether that may happen is what clean reads settle. */
  lemma DecideExecutesUnlessRejected(env: Env, db: Db, s: Session, i: nat)
    requires i < |s.pending| && Guarded(env, s.pending[i]) && s.pending[i].name in env.tools
    requires !HasObservation(s.steps, KeyOf(env.job, s.pending[i])) && env.tools[s.pending[i].name] >= 0
    ensures (Decide(env, db, s, i).CommitIntent? || Decide(env, db, s, i).Dispatch?) <==>
              FindApproval(db.approvals, s.pending[i].id) in {Some(Approved), Some(Verdict.Pending)}
  {
  }

  /** The next worker finds the approval row, does not look whether it was decided, and runs the call: with every lease
      kept, a guarded call is dispatched while its approval is still open. */
  lemma OpenApprovalIsDispatched() returns (schedule: seq<Action>)
    ensures StartOk(GuardedEnv().job, GuardedStart().db.rows) && NoIntentPending(GuardedEnv(), GuardedStart().db.rows)
    ensures AllTimely(GuardedEnv(), GuardedStart(), schedule)
    ensures var db := Run(GuardedEnv(), FULL, GuardedStart(), schedule).db;
            && |db.log| == 1 && Guarded(GuardedEnv(), db.log[0].call)
            && FindApproval(db.approvals, db.log[0].call.id) == Some(Verdict.Pending)
  {
    OnePlanOk(GuardedEnv().job, GuardedStart().db.rows[0]);
    var w, s := ApprovalReread();
    schedule := DispatchesNext(w, s);
  }

  /** Worker `b` takes over and reads the ledger. */
  lemma ApprovalReread() returns (w: World, schedule: seq<Action>)
    ensures Leads(GuardedEnv(), GuardedStart(), schedule, w, IN_TIME) && w.db.now == 11
    ensures |w.sessions| == 2 && w.sessions[1].pc == NextCall(0) && w.sessions[1].lease == 21
    ensures w.sessions[1].pending == [CALL] && w.sessions[1].steps == w.db.rows && w.sessions[1].local == w.db.run
    ensures w.db.rows == GuardedStart().db.rows + [Row(2, WaitStep(CALL), Some("c1"), None, 0, "a", 1)]
    ensures w.db.run.cursor == 2 && w.db.approvals == [Approval(CALL, Verdict.Pending)] && w.db.log == []
  {
    var env, w0 := GuardedEnv(), GuardedStart();
    var w1, s1 := ApprovalRecorded();
    OnePlanOk(env.job, w0.db.rows[0]);
    FoldAppend(env.job, w0.db.rows, w1.db.rows[1]);
    var w2, s2 := Goes(env, w0, s1, w1, IN_TIME, Crash(0));
    var w3, s3 := Goes(env, w0, s2, w2, IN_TIME, Tick(11));
    var w4, s4 := LoopStarts(env, w0, s3, w3, Claim("b", w3.db.now), "b", IN_TIME);
    w, schedule := PassStarts(env, w0, s4, w4, IN_TIME);
    assert w.sessions[1].pc == NextCall(0);
  }

  lemma DispatchesNext(w: World, schedule: seq<Action>) returns (schedule': seq<Action>)
    requires Leads(GuardedEnv(), GuardedStart(), schedule, w, IN_TIME) && w.db.now == 11
    requires |w.sessions| == 2 && w.sessions[1].pc == NextCall(0) && w.sessions[1].lease == 21
    requires w.sessions[1].pending == [CALL] && w.sessions[1].steps == w.db.rows && w.sessions[1].local == w.db.run
    requires w.db.rows == GuardedStart().db.rows + [Row(2, WaitStep(CALL), Some("c1"), None, 0, "a", 1)]
    requires w.db.run.cursor == 2 && w.db.approvals == [Approval(CALL, Verdict.Pending)] && w.db.log == []
    ensures AllTimely(GuardedEnv(), GuardedStart(), schedule')
    ensures var db := Run(GuardedEnv(), FULL, GuardedStart(), schedule').db;
            && |db.log| == 1 && Guarded(GuardedEnv(), db.log[0].call)
            && FindApproval(db.approvals, db.log[0].call.id) == Some(Verdict.Pending)
  {
    var env, w0 := GuardedEnv(), GuardedStart();
    var w1, s1 := GetsToDispatch(env, w0, schedule, w, IN_TIME, 0);
    var w2, s2 := Sends(env, w0, s1, w1, IN_TIME, Returned(Null));
    schedule' := s2;
    LeadsIsRun(env, w0, s2, w2, IN_TIME);
  }

  // ---------------------------------------------------------------------------
  // A crash between dispatch and observation
  // ---------------------------------------------------------------------------

  function AllowEnv(): Env {
    GuardedEnv().(policy := (call: ToolCall) => Allow)
  }

  /** Worker `a` dispatches the call and dies before it records the observation. */
  lemma DispatchedOnce() returns (w: World, schedule: seq<Action>)
    ensures Leads(AllowEnv(), GuardedStart(), schedule, w, IN_TIME)
    ensures w.db.rows == GuardedStart().db.rows
                         + [Row(2, IntentStep(CALL), Some("c1"), Some(Intent(Call("run", CALL))), 0, "a", 1)]
    ensures |w.db.log| == 1 && w.db.log[0].key == Call("run", CALL) && w.db.log[0].outcome.Returned? && w.db.now == 0
    ensures w.db.run == RunRow(Running, 2, Some("a"), Some(10), 1, false, None, None)
    ensures |w.sessions| == 1 && w.sessions[0].pc.CommitObservation?
  {
    var env, w0 := AllowEnv(), GuardedStart();
    OnePlanOk(env.job, w0.db.rows[0]);
    LeadsNowhere(env, w0, IN_TIME);
    var w1, s1 := LoopStarts(env, w0, [], w0, Claim("a", w0.db.now), "a", IN_TIME);
    var w2, s2 := PassStarts(env, w0, s1, w1, IN_TIME);
    assert w2.sessions[0].pc == NextCall(0);
    var w3, s3 := GetsToDispatch(env, w0, s2, w2, IN_TIME, 0);
    w, schedule := Sends(env, w0, s3, w3, IN_TIME, Returned(Null));
  }

  /** The next worker dispatches it again, under the same key: dispatches are not at most once, even with every lease
      kept, no retry allowed and no failure of the tool. Redispatch says exactly when they are. */
  lemma CrashRedispatches() returns (schedule: seq<Action>)
    ensures StartOk(AllowEnv().job, GuardedStart().db.rows) && AllTimely(AllowEnv(), GuardedStart(), schedule)
    ensures var log := Run(AllowEnv(), FULL, GuardedStart(), schedule).db.log;
            |log| == 2 && log[0].key == log[1].key && log[0].outcome.Returned? && log[1].outcome.Returned?
  {
    var env, w0 := AllowEnv(), GuardedStart();
    var w1, s1 := DispatchedOnce();
    OnePlanOk(env.job, w0.db.rows[0]);
    FoldAppend(env.job, w0.db.rows, w1.db.rows[1]);
    var w2, s2 := Goes(env, w0, s1, w1, IN_TIME, Crash(0));
    var w3, s3 := Goes(env, w0, s2, w2, IN_TIME, Tick(11));
    var w4, s4 := LoopStarts(env, w0, s3, w3, Claim("b", w3.db.now), "b", IN_TIME);
    var w5, s5 := PassStarts(env, w0, s4, w4, IN_TIME);
    assert w5.sessions[1].pc == NextCall(0);
    schedule := Redispatches(w5, s5);
  }

  lemma Redispatches(w: World, schedule: seq<Action>) returns (schedule': seq<Action>)
    requires Leads(AllowEnv(), GuardedStart(), schedule, w, IN_TIME) && w.db.now == 11
    requires |w.sessions| == 2 && w.sessions[1].pc == NextCall(0) && w.sessions[1].lease == 21
    requires w.sessions[1].pending == [CALL] && w.sessions[1].steps == w.db.rows
    requires |w.db.rows| == 2 && w.db.rows[1].key == Some(Intent(Call("run", CALL)))
    requires !w.db.rows[0].body.Observation? && !w.db.rows[1].body.Observation?
    requires |w.db.log| == 1 && w.db.log[0].key == Call("run", CALL) && w.db.log[0].outcome.Returned?
    ensures AllTimely(AllowEnv(), GuardedStart(), schedule')
    ensures var log := Run(AllowEnv(), FULL, GuardedStart(), schedule').db.log;
            |log| == 2 && log[0].key == log[1].key && log[0].outcome.Returned? && log[1].outcome.Returned?
  {
    var env, w0, act := AllowEnv(), GuardedStart(), Act(1, 11);
    var w1, s1 := Goes(env, w0, schedule, w, IN_TIME, act);
    assert w1.sessions[1].pc == Dispatch(0, 1);
    var w2, s2 := Goes(env, w0, s1, w1, IN_TIME, act);
    schedule' := s2;
    LeadsIsRun(env, w0, s2, w2, IN_TIME);
  }
}
