/** The reference run is a run. Crash transparency compares schedules with a trace of decisions; here every such trace is
    recorded by a schedule of the protocol in which nobody crashes, cancels or lets a lease run out. */
module Reference {
  import opened Values
  import opened Models
  import opened Rebuild
  import opened Protocol
  import opened LedgerInvariant
  import opened ExactlyOnce
  import opened Approvals
  import opened Dispatches
  import opened CrashTransparency
  import opened Timed
  import opened Paths

  /** Leases are kept, no approval is open when the run is claimed or read, nobody crashes, and everybody answers as the
      oracle does. */
  function Calm(oracle: Oracle): Manner {
    Manner(true, true, Some(oracle))
  }

  // ---------------------------------------------------------------------------
  // Attempts an undisturbed run needs
  // ---------------------------------------------------------------------------

  predicate IsGuardedAnswer(env: Env, row: Row) {
    row.body.Observation? && row.key.Some? && row.key.value.Call? && Guarded(env, row.key.value.call)
  }

  /** Guarded calls answered since the run was enqueued: each may park the run once. */
  function Askings(env: Env, start: nat, d: seq<Row>): nat {
    if |d| <= start then 0
    else Askings(env, start, d[..|d| - 1]) + if IsGuardedAnswer(env, d[|d| - 1]) then 1 else 0
  }

  // ---------------------------------------------------------------------------
  // A worker between two decisions
  // ---------------------------------------------------------------------------

  /** The latest worker holds the run, knows it, and no approval is open. */
  ghost predicate Holds(env: Env, w: World) {
    && w.sessions != [] && env.agent.Some? && env.leaseSeconds >= 0
    && var s, run := w.sessions[|w.sessions| - 1], w.db.run;
       && s.local == run && s.lease == w.db.now + env.leaseSeconds
       && run.status == Running && run.owner.Some? && run.expiry == Some(s.lease) && !run.cancel
       && GapFree(w.db.rows) && run.cursor == |w.db.rows| && !AnyOpen(w.db.approvals)
  }

  /** It is at the top of its loop, or at a call of its pass or past the last. */
  ghost predicate Standing(env: Env, w: World) {
    Holds(env, w) && (w.sessions[|w.sessions| - 1].pc.LoopTop? || w.sessions[|w.sessions| - 1].pc.NextCall?)
  }

  /** It stands at the first call the run owes, and knows whether the call has an intent. */
  ghost predicate AtOwed(env: Env, w: World, i: nat, call: ToolCall) {
    && Holds(env, w) && AtCall(w, i)
    && PendingCalls(env.job, w.db.rows) != [] && PendingCalls(env.job, w.db.rows)[0] == call
    && var s := w.sessions[|w.sessions| - 1];
       && s.pending == PendingCalls(env.job, s.steps) && s.pending[i] == call
       && (HasKey(s.steps, Intent(KeyOf(env.job, call))) <==> HasKey(w.db.rows, Intent(KeyOf(env.job, call))))
  }

  /** Rows that decide nothing. */
  ghost predicate Quiet(env: Env, start: nat, rows: seq<Row>, more: seq<Row>) {
    && SameFolds(env.job, more, rows) && Decisions(start, more) == Decisions(start, rows)
    && (NoFinalStep(start, rows) ==> NoFinalStep(start, more))
  }

  lemma QuietAppend(env: Env, start: nat, rows: seq<Row>, row: Row)
    requires start <= |rows| && (row.body.IntentStep? || row.body.WaitStep?) && row.cost == 0
    ensures Quiet(env, start, rows, rows + [row])
  {
    FoldAppend(env.job, rows, row);
    assert (rows + [row])[..|rows|] == rows;
  }

  /** What a schedule without crashes has reached, as far as the invariants go. */
  lemma Reached(env: Env, oracle: Oracle, now: Time, rows: seq<Row>, schedule: seq<Action>, w: World)
    requires StartOk(env.job, rows) && PlansNeverRepeat(env) && RowsNeverRepeat(rows)
    requires Leads(env, Enqueued(now, rows), schedule, w, Calm(oracle))
    ensures FreshInv(env, |rows|, w) && RowsNeverRepeat(w.db.rows[..|rows|]) && ApprovalsAgree(oracle, w.db.approvals)
  {
    LeadsIsRun(env, Enqueued(now, rows), schedule, w, Calm(oracle));
    AlwaysFresh(env, now, rows, schedule);
    LedgerStartsWith(env, now, rows, schedule);
    assert w.db.rows[..|rows|] == rows;
    AlwaysAgrees(env, oracle, now, rows, schedule);
  }

  /** In its pass the calls from where it stands are those the ledger owes. */
  lemma PassIsOwed(env: Env, start: nat, w: World, i: nat)
    requires FreshInv(env, start, w) && PlansNeverRepeat(env) && RowsNeverRepeat(w.db.rows[..start])
    requires Holds(env, w) && w.sessions[|w.sessions| - 1].pc == NextCall(i)
    ensures var s := w.sessions[|w.sessions| - 1];
            && i <= |s.pending| && PendingCalls(env.job, w.db.rows) == s.pending[i..]
            && s.pending == PendingCalls(env.job, s.steps)
    ensures var s := w.sessions[|w.sessions| - 1];
            i < |s.pending| ==> AtOwed(env, w, i, s.pending[i])
  {
    var sid := |w.sessions| - 1;
    var s := w.sessions[sid];
    assert SessionOk(env, start, w.db, s) && Fresh(env, w.db, s);
    PendingNeverRepeats(env, start, w, sid);
    forall j | i <= j < |s.pending|
      ensures s.pending[j] !in s.pending[..i]
    {
    }
    NoneSeen(env.job, s.pending[i..], Observed(w.db.rows));
    if i < |s.pending| && HasKey(s.steps, Intent(KeyOf(env.job, s.pending[i]))) {
      HasKeyMonotone(s.steps, w.db.rows, Intent(KeyOf(env.job, s.pending[i])));
    }
  }

  /** It gets to the top of its loop when nothing is owed. */
  lemma ReachesTop(env: Env, start: World, schedule: seq<Action>, w: World, how: Manner)
    returns (w': World, schedule': seq<Action>)
    requires Leads(env, start, schedule, w, how) && Standing(env, w)
    requires w.sessions[|w.sessions| - 1].pc.NextCall? ==>
               w.sessions[|w.sessions| - 1].pc.i >= |w.sessions[|w.sessions| - 1].pending|
    ensures Leads(env, start, schedule', w', how) && w'.db == w.db
    ensures w'.sessions == w.sessions[|w.sessions| - 1 := w.sessions[|w.sessions| - 1].(pc := LoopTop)]
  {
    var sid := |w.sessions| - 1;
    if w.sessions[sid].pc.LoopTop? {
      w', schedule' := w, schedule;
      assert w.sessions[sid := w.sessions[sid].(pc := LoopTop)] == w.sessions;
    } else {
      DecideIsStep(env, w, sid, w.sessions[sid].pc.i);
      w', schedule' := Goes(env, start, schedule, w, how, Act(sid, w.db.now));
    }
  }

  /** It gets to the first call the run owes. */
  lemma ReachesCall(env: Env, oracle: Oracle, now: Time, rows: seq<Row>, schedule: seq<Action>, w: World)
    returns (w': World, schedule': seq<Action>, i: nat)
    requires StartOk(env.job, rows) && PlansNeverRepeat(env) && RowsNeverRepeat(rows)
    requires Leads(env, Enqueued(now, rows), schedule, w, Calm(oracle)) && Standing(env, w)
    requires PendingCalls(env.job, w.db.rows) != [] && PlanCount(w.db.rows) < env.maxSteps
    ensures Leads(env, Enqueued(now, rows), schedule', w', Calm(oracle)) && w'.db == w.db
    ensures AtOwed(env, w', i, PendingCalls(env.job, w.db.rows)[0])
  {
    w', schedule' := w, schedule;
    if w.sessions[|w.sessions| - 1].pc.LoopTop? {
      w', schedule' := PassStarts(env, Enqueued(now, rows), schedule, w, Calm(oracle));
    }
    i := w'.sessions[|w'.sessions| - 1].pc.i;
    Reached(env, oracle, now, rows, schedule', w');
    PassIsOwed(env, |rows|, w', i);
  }

  // ---------------------------------------------------------------------------
  // A human is asked
  // ---------------------------------------------------------------------------

  lemma {:induction false} FindAppended(approvals: seq<Approval>, call: ToolCall, verdict: Verdict)
    requires !HasApproval(approvals, call.id)
    ensures FindApproval(approvals + [Approval(call, verdict)], call.id) == Some(verdict)
  {
    var more := approvals + [Approval(call, verdict)];
    if approvals != [] {
      assert approvals[0].call.id != call.id;
      assert more[1..] == approvals[1..] + [Approval(call, verdict)];
      assert forall i :: 0 <= i < |approvals[1..]| ==> approvals[1..][i] == approvals[i + 1];
      FindAppended(approvals[1..], call, verdict);
    }
  }

  /** What was decided is what the oracle says. */
  lemma FoundAgrees(oracle: Oracle, approvals: seq<Approval>, id: string)
    requires ApprovalsAgree(oracle, approvals) && !AnyOpen(approvals) && HasApproval(approvals, id)
    ensures FindApproval(approvals, id) == Some(if oracle.approves(id) then Approved else Rejected)
  {
    FoundIsDecided(approvals, id);
  }

  /** The worker asks and parks, and a human decides. */
  lemma AsksAndParks(env: Env, oracle: Oracle, start: World, n: nat, schedule: seq<Action>, w: World, i: nat, call: ToolCall)
    returns (w': World, schedule': seq<Action>)
    requires Leads(env, start, schedule, w, Calm(oracle)) && AtOwed(env, w, i, call) && n <= |w.db.rows|
    requires Guarded(env, call) && !HasApproval(w.db.approvals, call.id)
    ensures Leads(env, start, schedule', w', Calm(oracle)) && Quiet(env, n, w.db.rows, w'.db.rows)
    ensures GapFree(w'.db.rows) && HasApproval(w'.db.approvals, call.id) && !AnyOpen(w'.db.approvals)
    ensures w'.db.run == Released(w.db.run.(cursor := |w'.db.rows|), Queued)
  {
    var w1, s1 := Asks(env, start, schedule, w, Calm(oracle), i);
    QuietAppend(env, n, w.db.rows, w1.db.rows[|w.db.rows|]);
    w', schedule' := IsDecidedThen(env, start, s1, w1, Calm(oracle), call, oracle.approves(call.id));
    assert w'.db.approvals[|w.db.approvals|].call.id == call.id;
  }

  /** The worker asks and parks, a human decides, and another attempt reads the ledger. */
  lemma AsksAndComesBack(env: Env, oracle: Oracle, start: World, n: nat, schedule: seq<Action>, w: World, i: nat,
                         call: ToolCall)
    returns (w': World, schedule': seq<Action>)
    requires Leads(env, start, schedule, w, Calm(oracle)) && AtOwed(env, w, i, call) && n <= |w.db.rows|
    requires Guarded(env, call) && !HasApproval(w.db.approvals, call.id) && w.db.run.attempt < env.maxAttempts
    requires PlanCount(w.db.rows) < env.maxSteps
    ensures Leads(env, start, schedule', w', Calm(oracle)) && Standing(env, w') && Quiet(env, n, w.db.rows, w'.db.rows)
    ensures HasApproval(w'.db.approvals, call.id) && w'.db.run.attempt == w.db.run.attempt + 1
  {
    var w1, s1 := AsksAndParks(env, oracle, start, n, schedule, w, i, call);
    ClaimLeases(env, w1, "worker");
    w', schedule' := LoopStarts(env, start, s1, w1, Claim("worker", w1.db.now), "worker", Calm(oracle));
  }

  // ---------------------------------------------------------------------------
  // A call is answered
  // ---------------------------------------------------------------------------

  /** The dispatches end as the oracle has it: the tool returns at once, or fails every time. */
  lemma {:induction false} SendsAsTold(env: Env, oracle: Oracle, start: World, schedule: seq<Action>, w: World)
    returns (w': World, schedule': seq<Action>)
    requires Leads(env, start, schedule, w, Calm(oracle)) && w.sessions != []
    requires var s := w.sessions[|w.sessions| - 1];
             && s.pc.Dispatch? && s.pc.left > 0 && s.pc.i < |s.pending| && w.db.now <= s.lease
             && !oracle.tool(s.pending[s.pc.i]).Broke?
    ensures Leads(env, start, schedule', w', Calm(oracle)) && w'.db == w.db.(log := w'.db.log)
    ensures var s := w.sessions[|w.sessions| - 1];
            w'.sessions == w.sessions[|w.sessions| - 1 :=
                             s.(pc := AfterDispatch(env, s.pc.i, 1, oracle.tool(s.pending[s.pc.i])))]
    decreases w.sessions[|w.sessions| - 1].pc.left
  {
    var s := w.sessions[|w.sessions| - 1];
    var outcome := oracle.tool(s.pending[s.pc.i]);
    w', schedule' := Sends(env, start, schedule, w, Calm(oracle), outcome);
    if outcome.Threw? && s.pc.left > 1 {
      var w1 := w';
      w', schedule' := SendsAsTold(env, oracle, start, schedule', w1);
    }
  }

  /** The approval of the call, if it needs one, is as the oracle says. */
  predicate IsSettled(env: Env, oracle: Oracle, w: World, call: ToolCall) {
    Guarded(env, call) ==>
      FindApproval(w.db.approvals, call.id) == Some(if oracle.approves(call.id) then Approved else Rejected)
  }

  /** Policy and approval let the call through, and its tool is known. */
  predicate MayExecute(env: Env, oracle: Oracle, call: ToolCall) {
    (env.policy(call) == Allow || (Guarded(env, call) && oracle.approves(call.id))) && call.name in env.tools
  }

  /** It has the intent of the call on record, and stands where the dispatches start. */
  lemma RecordsIntent(env: Env, oracle: Oracle, start: World, n: nat, schedule: seq<Action>, w: World, i: nat, call: ToolCall)
    returns (w': World, schedule': seq<Action>)
    requires Leads(env, start, schedule, w, Calm(oracle)) && AtOwed(env, w, i, call) && n <= |w.db.rows|
    requires var s := w.sessions[|w.sessions| - 1];
             call.name in env.tools && Decide(env, w.db, s, i) == Execute(env, s.steps, i, call)
    ensures Leads(env, start, schedule', w', Calm(oracle)) && Quiet(env, n, w.db.rows, w'.db.rows)
    ensures Holds(env, w') && AtPc(w', i, call, StartDispatch(env, i, env.tools[call.name] + 1))
    ensures w'.db.run.attempt == w.db.run.attempt
  {
    w', schedule' := GetsToDispatch(env, start, schedule, w, Calm(oracle), i);
    if w'.db.rows != w.db.rows {
      QuietAppend(env, n, w.db.rows, w'.db.rows[|w.db.rows|]);
    }
  }

  /** The latest worker is at this point of what it does with call `i`. */
  predicate AtPc(w: World, i: nat, call: ToolCall, pc: Pc) {
    && w.sessions != []
    && var s := w.sessions[|w.sessions| - 1]; s.pc == pc && i < |s.pending| && s.pending[i] == call
  }

  /** It executes the call: intent first, then the dispatches. */
  lemma ExecutesCall(env: Env, oracle: Oracle, start: World, n: nat, schedule: seq<Action>, w: World, i: nat, call: ToolCall)
    returns (w': World, schedule': seq<Action>)
    requires Leads(env, start, schedule, w, Calm(oracle)) && AtOwed(env, w, i, call) && n <= |w.db.rows|
    requires var s := w.sessions[|w.sessions| - 1];
             call.name in env.tools && Decide(env, w.db, s, i) == Execute(env, s.steps, i, call)
    requires !oracle.tool(call).Broke? || env.tools[call.name] + 1 <= 0
    ensures Leads(env, start, schedule', w', Calm(oracle)) && Quiet(env, n, w.db.rows, w'.db.rows)
    ensures Holds(env, w') && AtPc(w', i, call, if env.tools[call.name] + 1 > 0
                                                then AfterDispatch(env, i, 1, oracle.tool(call))
                                                else CommitObservation(i, Null, CostOf(env, Null)))
    ensures w'.db.run.attempt == w.db.run.attempt
  {
    w', schedule' := RecordsIntent(env, oracle, start, n, schedule, w, i, call);
    if env.tools[call.name] + 1 > 0 {
      var w1 := w';
      w', schedule' := SendsAsTold(env, oracle, start, schedule', w1);
    }
  }

  /** What is decided about the call is to execute it, or to record what the oracle has for it. */
  lemma DecidesAsTold(env: Env, oracle: Oracle, w: World, i: nat, call: ToolCall)
    requires AtOwed(env, w, i, call) && IsSettled(env, oracle, w, call) && ResultOf(env, oracle, call).Some?
    ensures var s, (result, cost) := w.sessions[|w.sessions| - 1], ResultOf(env, oracle, call).value;
            Decide(env, w.db, s, i) == if MayExecute(env, oracle, call) then Execute(env, s.steps, i, call)
                                       else CommitObservation(i, result, cost)
  {
    DecideActs(env, w.db, w.sessions[|w.sessions| - 1], i);
  }

  /** The worker gets from its call to the result of it. */
  lemma GetsResult(env: Env, oracle: Oracle, start: World, n: nat, schedule: seq<Action>, w: World, i: nat, call: ToolCall)
    returns (w': World, schedule': seq<Action>)
    requires Leads(env, start, schedule, w, Calm(oracle)) && AtOwed(env, w, i, call) && n <= |w.db.rows|
    requires IsSettled(env, oracle, w, call) && ResultOf(env, oracle, call).Some?
    ensures Leads(env, start, schedule', w', Calm(oracle)) && Holds(env, w') && Quiet(env, n, w.db.rows, w'.db.rows)
    ensures var (result, cost) := ResultOf(env, oracle, call).value; AtPc(w', i, call, CommitObservation(i, result, cost))
    ensures w'.db.run.attempt == w.db.run.attempt
  {
    DecidesAsTold(env, oracle, w, i, call);
    if MayExecute(env, oracle, call) {
      w', schedule' := ExecutesCall(env, oracle, start, n, schedule, w, i, call);
    } else {
      DecideIsStep(env, w, |w.sessions| - 1, i);
      w', schedule' := Goes(env, start, schedule, w, Calm(oracle), Act(|w.sessions| - 1, w.db.now));
    }
  }

  // ---------------------------------------------------------------------------
  // One decision
  // ---------------------------------------------------------------------------

  /** The schedule has recorded these decisions; unless the last one ends the run, a worker is ready for the next. */
  ghost predicate Recorded(env: Env, oracle: Oracle, now: Time, rows: seq<Row>, schedule: seq<Action>, w: World,
                           d: seq<Row>) {
    && Leads(env, Enqueued(now, rows), schedule, w, Calm(oracle)) && |rows| <= |d| && |rows| <= |w.db.rows|
    && Decisions(|rows|, w.db.rows) == d && w.db.run.attempt <= 1 + Askings(env, |rows|, d)
    && (|d| == |rows| || !IsFinalPlan(env, d[..|d| - 1], d[|d| - 1]) ==>
          Standing(env, w) && NoFinalStep(|rows|, w.db.rows))
  }

  lemma RecordsAppend(env: Env, oracle: Oracle, start: nat, rows: seq<Row>, row: Row)
    requires start <= |rows| && IsDecision(row)
    ensures Decisions(start, rows + [row]) == Decisions(start, rows) + [Erase(row)]
    ensures NoFinalStep(start, rows) ==> NoFinalStep(start, rows + [row])
  {
    assert (rows + [row])[..|rows|] == rows;
  }

  lemma AskingsAppend(env: Env, start: nat, d: seq<Row>, row: Row)
    requires start <= |d|
    ensures Askings(env, start, d + [row]) == Askings(env, start, d) + if IsGuardedAnswer(env, row) then 1 else 0
  {
    assert (d + [row])[..|d|] == d;
  }

  /** The next decision depends on what the ledger folds to, and on nothing else. */
  lemma ContinueIsFolded(env: Env, oracle: Oracle, rows: seq<Row>, others: seq<Row>)
    requires SameFolds(env.job, rows, others)
    ensures Continue(env, oracle, rows) == Continue(env, oracle, others)
    ensures PendingCalls(env.job, rows) == PendingCalls(env.job, others)
  {
  }

  lemma PlanIsAccepted(env: Env, w: World, sid: nat, plan: Plan)
    requires sid < |w.sessions| && w.sessions[sid].pc == CommitPlan(plan) && w.sessions[sid].local == w.db.run
    requires GapFree(w.db.rows) && w.db.run.cursor == |w.db.rows|
    ensures var s, run := w.sessions[sid], w.db.run.(cursor := |w.db.rows| + 1);
            Next(env, FULL, w, Act(sid, w.db.now))
            == World(w.db.(rows := w.db.rows + [NewRow(s, PlanStep(plan.content, plan.calls), None, None, plan.cost)],
                           writers := w.db.writers + [sid], run := run),
                     w.sessions[sid := s.(pc := if plan.IsFinal() then CommitFinal(plan) else LoopTop, local := run)])
  {
    SeqFreeIsEnd(w.db.rows, w.db.run.cursor);
  }

  /** The worker asks the model and records its plan. */
  lemma RecordsPlan(env: Env, oracle: Oracle, now: Time, rows: seq<Row>, schedule: seq<Action>, w: World, plan: Plan)
    returns (w': World, schedule': seq<Action>)
    requires StartOk(env.job, rows) && PlansNeverRepeat(env) && RowsNeverRepeat(rows)
    requires Leads(env, Enqueued(now, rows), schedule, w, Calm(oracle)) && Standing(env, w)
    requires PendingCalls(env.job, w.db.rows) == [] && AfterLoad(env, w.db.rows, []) == CommitPlan(plan)
    ensures Leads(env, Enqueued(now, rows), schedule', w', Calm(oracle)) && w'.db.run.attempt == w.db.run.attempt
    ensures |w'.db.rows| == |w.db.rows| + 1 && w'.db.rows == w.db.rows + [w'.db.rows[|w.db.rows|]]
    ensures Erase(w'.db.rows[|w.db.rows|]) == Row(0, PlanStep(plan.content, plan.calls), None, None, plan.cost, "", 0)
    ensures !plan.IsFinal() ==> Standing(env, w')
  {
    var sid := |w.sessions| - 1;
    if w.sessions[sid].pc.NextCall? {
      Reached(env, oracle, now, rows, schedule, w);
      PassIsOwed(env, |rows|, w, w.sessions[sid].pc.i);
    }
    var w1, s1 := ReachesTop(env, Enqueued(now, rows), schedule, w, Calm(oracle));
    var w2, s2 := PassStarts(env, Enqueued(now, rows), s1, w1, Calm(oracle));
    PlanIsAccepted(env, w2, sid, plan);
    w', schedule' := Goes(env, Enqueued(now, rows), s2, w2, Calm(oracle), Act(sid, w2.db.now));
  }

  /** The worker gets to the first call it owes, with an approval if the call needs one; if a human has to be asked, that
      takes one more attempt. */
  lemma ReachesSettled(env: Env, oracle: Oracle, now: Time, rows: seq<Row>, schedule: seq<Action>, w: World, call: ToolCall)
    returns (w': World, schedule': seq<Action>, i: nat)
    requires StartOk(env.job, rows) && PlansNeverRepeat(env) && RowsNeverRepeat(rows)
    requires Leads(env, Enqueued(now, rows), schedule, w, Calm(oracle)) && Standing(env, w) && |rows| <= |w.db.rows|
    requires PendingCalls(env.job, w.db.rows) != [] && PendingCalls(env.job, w.db.rows)[0] == call
    requires PlanCount(w.db.rows) < env.maxSteps && (Guarded(env, call) ==> w.db.run.attempt < env.maxAttempts)
    ensures Leads(env, Enqueued(now, rows), schedule', w', Calm(oracle)) && AtOwed(env, w', i, call)
    ensures IsSettled(env, oracle, w', call) && Quiet(env, |rows|, w.db.rows, w'.db.rows) && |rows| <= |w'.db.rows|
    ensures w'.db.run.attempt <= w.db.run.attempt + if Guarded(env, call) then 1 else 0
  {
    w', schedule', i := ReachesCall(env, oracle, now, rows, schedule, w);
    if Guarded(env, call) && !HasApproval(w'.db.approvals, call.id) {
      var w1, s1 := AsksAndComesBack(env, oracle, Enqueued(now, rows), |rows|, schedule', w', i, call);
      LeadsIsLonger(env, oracle, now, rows, s1, w1);
      w', schedule', i := ReachesCall(env, oracle, now, rows, s1, w1);
    }
    Reached(env, oracle, now, rows, schedule', w');
    if Guarded(env, call) {
      FoundAgrees(oracle, w'.db.approvals, call.id);
    }
  }

  lemma LeadsIsLonger(env: Env, oracle: Oracle, now: Time, rows: seq<Row>, schedule: seq<Action>, w: World)
    requires StartOk(env.job, rows) && Leads(env, Enqueued(now, rows), schedule, w, Calm(oracle))
    ensures |rows| <= |w.db.rows|
  {
    LeadsIsRun(env, Enqueued(now, rows), schedule, w, Calm(oracle));
    LedgerStartsWith(env, now, rows, schedule);
  }

  /** It gets an answer for it and records it. */
  lemma RecordsAnswer(env: Env, oracle: Oracle, now: Time, rows: seq<Row>, schedule: seq<Action>, w: World, call: ToolCall)
    returns (w': World, schedule': seq<Action>, before: seq<Row>)
    requires StartOk(env.job, rows) && PlansNeverRepeat(env) && RowsNeverRepeat(rows)
    requires Leads(env, Enqueued(now, rows), schedule, w, Calm(oracle)) && Standing(env, w) && |rows| <= |w.db.rows|
    requires PendingCalls(env.job, w.db.rows) != [] && PendingCalls(env.job, w.db.rows)[0] == call
    requires PlanCount(w.db.rows) < env.maxSteps && ResultOf(env, oracle, call).Some?
    requires Guarded(env, call) ==> w.db.run.attempt < env.maxAttempts
    ensures Leads(env, Enqueued(now, rows), schedule', w', Calm(oracle)) && Standing(env, w')
    ensures w'.db.run.attempt <= w.db.run.attempt + if Guarded(env, call) then 1 else 0
    ensures Quiet(env, |rows|, w.db.rows, before) && |w'.db.rows| == |before| + 1 && |rows| <= |before|
    ensures w'.db.rows == before + [w'.db.rows[|before|]]
    ensures var (result, cost) := ResultOf(env, oracle, call).value;
            Erase(w'.db.rows[|before|]) == Row(0, Observation(call.id, call.name, result), Some(call.id),
                                               Some(KeyOf(env.job, call)), cost, "", 0)
  {
    var w1, s1, i := ReachesSettled(env, oracle, now, rows, schedule, w, call);
    var w2, s2 := GetsResult(env, oracle, Enqueued(now, rows), |rows|, s1, w1, i, call);
    before := w2.db.rows;
    LeadsIsLonger(env, oracle, now, rows, s2, w2);
    QuietTwice(env, |rows|, w.db.rows, w1.db.rows, w2.db.rows);
    OwedKeyIsFree(env, oracle, now, rows, s2, w2, call);
    w', schedule' := Records(env, Enqueued(now, rows), s2, w2, Calm(oracle));
  }

  lemma QuietTwice(env: Env, start: nat, rows: seq<Row>, more: seq<Row>, most: seq<Row>)
    requires Quiet(env, start, rows, more) && Quiet(env, start, more, most)
    ensures Quiet(env, start, rows, most) && PendingCalls(env.job, most) == PendingCalls(env.job, rows)
  {
  }

  lemma OwedKeyIsFree(env: Env, oracle: Oracle, now: Time, rows: seq<Row>, schedule: seq<Action>, w: World, call: ToolCall)
    requires StartOk(env.job, rows) && PlansNeverRepeat(env) && RowsNeverRepeat(rows)
    requires Leads(env, Enqueued(now, rows), schedule, w, Calm(oracle))
    requires call in PendingCalls(env.job, w.db.rows)
    ensures KeyFree(w.db.rows, Some(KeyOf(env.job, call)))
  {
    Reached(env, oracle, now, rows, schedule, w);
    CallKeyIsObservation(env, |rows|, w.db.rows, call);
  }

  /** A trace goes on with a plan. */
  lemma {:induction false} DecidesPlan(env: Env, oracle: Oracle, now: Time, rows: seq<Row>, schedule: seq<Action>,
                                       w: World, d: seq<Row>, row: Row)
    returns (w': World, schedule': seq<Action>)
    requires StartOk(env.job, rows) && PlansNeverRepeat(env) && RowsNeverRepeat(rows)
    requires Recorded(env, oracle, now, rows, schedule, w, d) && SameFolds(env.job, w.db.rows, d)
    requires Standing(env, w) && NoFinalStep(|rows|, w.db.rows)
    requires PendingCalls(env.job, d) == [] && Continue(env, oracle, d) == Some(row)
    ensures Recorded(env, oracle, now, rows, schedule', w', d + [row])
  {
    ContinueIsFolded(env, oracle, w.db.rows, d);
    var plan := env.agent.value(StateOf(env.job, w.db.rows)).plan;
    w', schedule' := RecordsPlan(env, oracle, now, rows, schedule, w, plan);
    RecordsAppend(env, oracle, |rows|, w.db.rows, w'.db.rows[|w.db.rows|]);
    AskingsAppend(env, |rows|, d, row);
    assert (d + [row])[..|d|] == d;
  }

  /** Or with an answer. */
  lemma {:induction false} DecidesAnswer(env: Env, oracle: Oracle, now: Time, rows: seq<Row>, schedule: seq<Action>,
                                         w: World, d: seq<Row>, row: Row)
    returns (w': World, schedule': seq<Action>)
    requires StartOk(env.job, rows) && PlansNeverRepeat(env) && RowsNeverRepeat(rows)
    requires Recorded(env, oracle, now, rows, schedule, w, d) && SameFolds(env.job, w.db.rows, d)
    requires Standing(env, w) && NoFinalStep(|rows|, w.db.rows)
    requires PendingCalls(env.job, d) != [] && Continue(env, oracle, d) == Some(row)
    requires env.maxAttempts > Askings(env, |rows|, d + [row])
    ensures Recorded(env, oracle, now, rows, schedule', w', d + [row])
  {
    var before;
    ContinueIsFolded(env, oracle, w.db.rows, d);
    AskingsAppend(env, |rows|, d, row);
    var call := PendingCalls(env.job, d)[0];
    w', schedule', before := RecordsAnswer(env, oracle, now, rows, schedule, w, call);
    RecordsAppend(env, oracle, |rows|, before, w'.db.rows[|before|]);
    assert (d + [row])[..|d|] == d;
  }

  lemma {:induction false} DecidesNext(env: Env, oracle: Oracle, now: Time, rows: seq<Row>, schedule: seq<Action>,
                                       w: World, d: seq<Row>, row: Row)
    returns (w': World, schedule': seq<Action>)
    requires StartOk(env.job, rows) && PlansNeverRepeat(env) && RowsNeverRepeat(rows)
    requires Recorded(env, oracle, now, rows, schedule, w, d) && Continue(env, oracle, d) == Some(row)
    requires |d| == |rows| || !IsFinalPlan(env, d[..|d| - 1], d[|d| - 1])
    requires env.maxAttempts > Askings(env, |rows|, d + [row])
    ensures Recorded(env, oracle, now, rows, schedule', w', d + [row])
  {
    RecordedIsFolded(env, oracle, now, rows, schedule, w, d);
    if PendingCalls(env.job, d) == [] {
      w', schedule' := DecidesPlan(env, oracle, now, rows, schedule, w, d, row);
    } else {
      w', schedule' := DecidesAnswer(env, oracle, now, rows, schedule, w, d, row);
    }
  }

  lemma RecordedIsFolded(env: Env, oracle: Oracle, now: Time, rows: seq<Row>, schedule: seq<Action>, w: World, d: seq<Row>)
    requires StartOk(env.job, rows) && Recorded(env, oracle, now, rows, schedule, w, d)
    requires NoFinalStep(|rows|, w.db.rows)
    ensures SameFolds(env.job, w.db.rows, d)
  {
    LeadsIsRun(env, Enqueued(now, rows), schedule, w, Calm(oracle));
    LedgerAlwaysOk(env, now, rows, schedule);
    assert w.db.rows[..|w.db.rows|] == w.db.rows;
    FoldsOfDecisions(env, |rows|, w.db.rows, |w.db.rows|);
  }

  // ---------------------------------------------------------------------------
  // Every trace
  // ---------------------------------------------------------------------------

  lemma FirstClaim(env: Env, oracle: Oracle, now: Time, rows: seq<Row>) returns (w: World, schedule: seq<Action>)
    requires StartOk(env.job, rows) && env.agent.Some? && env.leaseSeconds >= 0 && env.maxAttempts > 0
    ensures Recorded(env, oracle, now, rows, schedule, w, rows) && w.db.rows == rows
  {
    var start := Enqueued(now, rows);
    LeadsNowhere(env, start, Calm(oracle));
    ClaimLeases(env, start, "worker");
    w, schedule := LoopStarts(env, start, [], start, Claim("worker", start.db.now), "worker", Calm(oracle));
  }

  lemma {:induction false} TraceIsReached(env: Env, oracle: Oracle, now: Time, rows: seq<Row>, d: seq<Row>)
    returns (w: World, schedule: seq<Action>)
    requires StartOk(env.job, rows) && PlansNeverRepeat(env) && RowsNeverRepeat(rows)
    requires env.agent.Some? && env.leaseSeconds >= 0 && env.maxAttempts > Askings(env, |rows|, d)
    requires IsTrace(env, oracle, |rows|, d) && d[..|rows|] == rows
    ensures Recorded(env, oracle, now, rows, schedule, w, d)
    decreases |d|
  {
    if |d| == |rows| {
      assert d == rows;
      w, schedule := FirstClaim(env, oracle, now, rows);
    } else {
      var init, row := TracePrefix(env, oracle, |rows|, d);
      AskingsAppend(env, |rows|, init, row);
      assert init[..|rows|] == d[..|rows|];
      var w1, s1 := TraceIsReached(env, oracle, now, rows, init);
      w, schedule := DecidesNext(env, oracle, now, rows, s1, w1, init, row);
    }
  }

  /** A trace is a shorter one that is not over, and the next decision. */
  lemma TracePrefix(env: Env, oracle: Oracle, start: nat, d: seq<Row>) returns (init: seq<Row>, row: Row)
    requires IsTrace(env, oracle, start, d) && |d| > start
    ensures d == init + [row] && IsTrace(env, oracle, start, init) && Continue(env, oracle, init) == Some(row)
    ensures |init| == start || !IsFinalPlan(env, init[..|init| - 1], init[|init| - 1])
  {
    init, row := d[..|d| - 1], d[|d| - 1];
    assert Follows(env, oracle, start, d, |d| - 1);
    assert |init| > start ==> init[..|init| - 1] == d[..|d| - 2] && init[|init| - 1] == d[|d| - 2];
    forall i | start <= i < |init|
      ensures Follows(env, oracle, start, init, i)
    {
      assert Follows(env, oracle, start, d, i);
      assert init[..i] == d[..i] && (i > start ==> init[..i - 1] == d[..i - 1]);
    }
  }

  /** Completeness: whatever trace the undisturbed run has, a schedule without crashes, cancellations and expired leases
      records it, decision for decision, as long as the settings allow one attempt more than humans are asked. */
  lemma {:induction false} TraceIsRecorded(env: Env, oracle: Oracle, now: Time, rows: seq<Row>, d: seq<Row>)
    returns (schedule: seq<Action>)
    requires StartOk(env.job, rows) && PlansNeverRepeat(env) && RowsNeverRepeat(rows)
    requires env.agent.Some? && env.leaseSeconds >= 0 && env.maxAttempts > Askings(env, |rows|, d)
    requires IsTrace(env, oracle, |rows|, d) && d[..|rows|] == rows
    ensures Undisturbed(schedule) && AgreesAll(env, oracle, Enqueued(now, rows), schedule)
    ensures AllTimely(env, Enqueued(now, rows), schedule) && AllCleanClaims(env, Enqueued(now, rows), schedule)
    ensures Decisions(|rows|, Run(env, FULL, Enqueued(now, rows), schedule).db.rows) == d
  {
    var w;
    w, schedule := TraceIsReached(env, oracle, now, rows, d);
    LeadsIsRun(env, Enqueued(now, rows), schedule, w, Calm(oracle));
  }

  /** So whatever crashes, stalls and expired leases a schedule holds, some schedule without any of them records the same
      decisions. */
  lemma SomeCalmScheduleAgrees(env: Env, oracle: Oracle, now: Time, rows: seq<Row>, schedule: seq<Action>, n: nat)
    returns (calm: seq<Action>)
    requires StartOk(env.job, rows) && PlansNeverRepeat(env) && RowsNeverRepeat(rows)
    requires AgreesAll(env, oracle, Enqueued(now, rows), schedule)
    requires UpToEnd(env, |rows|, Run(env, FULL, Enqueued(now, rows), schedule).db.rows, n)
    requires var d := Decisions(|rows|, Run(env, FULL, Enqueued(now, rows), schedule).db.rows[..n]);
             env.agent.Some? && env.leaseSeconds >= 0 && env.maxAttempts > Askings(env, |rows|, d)
    ensures Undisturbed(calm) && AgreesAll(env, oracle, Enqueued(now, rows), calm)
    ensures AllTimely(env, Enqueued(now, rows), calm)
    ensures Decisions(|rows|, Run(env, FULL, Enqueued(now, rows), calm).db.rows)
         == Decisions(|rows|, Run(env, FULL, Enqueued(now, rows), schedule).db.rows[..n])
  {
    CrashTransparent(env, oracle, now, rows, schedule, n);
    calm := TraceIsRecorded(env, oracle, now, rows,
                            Decisions(|rows|, Run(env, FULL, Enqueued(now, rows), schedule).db.rows[..n]));
  }
}
