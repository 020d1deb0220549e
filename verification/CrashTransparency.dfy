/** Crash transparency. With a deterministic model and policy, tools whose outcome depends only on the call, and
    approvers who would always give the same answer, every schedule of crashes, stalls and re-leases records the
    decisions of one reference run, in order, up to and including its first final plan. */
module CrashTransparency {
  import opened Values
  import opened Models
  import opened Rebuild
  import opened Protocol
  import opened LedgerInvariant
  import opened Approvals

  /** What the outside world answers, whoever asks and whenever. */
  datatype Oracle = Oracle(tool: ToolCall -> Outcome, approves: string -> bool)

  // ---------------------------------------------------------------------------
  // Schedules that agree with the oracle
  // ---------------------------------------------------------------------------

  predicate Agrees(oracle: Oracle, w: World, a: Action) {
    && CleanRead(w, a)
    && (Moves(w, a) ==>
          var s := w.sessions[a.sid];
          s.pc.Dispatch? && s.pc.i < |s.pending| ==> a.outcome == oracle.tool(s.pending[s.pc.i]))
    && (a.Resolve? && LastPending(w.db.approvals).Some? ==>
          a.approve == oracle.approves(w.db.approvals[LastPending(w.db.approvals).value].call.id))
  }

  predicate AgreesAll(env: Env, oracle: Oracle, w: World, schedule: seq<Action>) {
    schedule == [] ||
    (AgreesAll(env, oracle, w, schedule[..|schedule| - 1])
     && Agrees(oracle, Run(env, FULL, w, schedule[..|schedule| - 1]), schedule[|schedule| - 1]))
  }

  /** What is recorded for a call: the one result, and its cost. */
  function ResultOf(env: Env, oracle: Oracle, call: ToolCall): Option<(Json, int)> {
    if env.policy(call).Invalid? then None
    else if env.policy(call) == Deny then Some((POLICY_DENIED, 0))
    else if env.policy(call) == RequireApproval && !oracle.approves(call.id) then Some((REJECTED, 0))
    else if call.name !in env.tools then Some((UNKNOWN_TOOL, 0))
    else if env.tools[call.name] + 1 <= 0 then Some((Null, CostOf(env, Null)))
    else match oracle.tool(call)
      case Returned(result) => Some((result, CostOf(env, result)))
      case Threw(detail, _) => Some((ToolErrorResult(detail), 0))
      case Broke(_, _) => None
  }

  // ---------------------------------------------------------------------------
  // Invariant: what is recorded, or about to be, is what the oracle says
  // ---------------------------------------------------------------------------

  predicate ApprovalsAgree(oracle: Oracle, approvals: seq<Approval>) {
    forall i :: 0 <= i < |approvals| ==>
      && (approvals[i].verdict == Approved ==> oracle.approves(approvals[i].call.id))
      && (approvals[i].verdict == Rejected ==> !oracle.approves(approvals[i].call.id))
  }

  predicate RecordAgrees(env: Env, oracle: Oracle, before: seq<Row>, row: Row) {
    row.body.Observation? && PendingCalls(env.job, before) != [] ==>
      ResultOf(env, oracle, PendingCalls(env.job, before)[0]) == Some((row.body.result, row.cost))
  }

  ghost predicate RowsAgree(env: Env, oracle: Oracle, start: nat, rows: seq<Row>) {
    forall i {:trigger RecordAgrees(env, oracle, rows[..i], rows[i])} :: start <= i < |rows| ==>
      RecordAgrees(env, oracle, rows[..i], rows[i])
  }

  predicate SessionAgrees(env: Env, oracle: Oracle, db: Db, s: Session) {
    s.pc.CommitObservation? && s.pc.i < |s.pending| && Current(db, s) ==>
      ResultOf(env, oracle, s.pending[s.pc.i]) == Some((s.pc.result, s.pc.cost))
  }

  ghost predicate AgreeInv(env: Env, oracle: Oracle, start: nat, w: World) {
    && ApprovalInv(env, start, w) && ApprovalsAgree(oracle, w.db.approvals) && RowsAgree(env, oracle, start, w.db.rows)
    && forall k :: 0 <= k < |w.sessions| ==> SessionAgrees(env, oracle, w.db, w.sessions[k])
  }

  lemma DecideAgrees(env: Env, oracle: Oracle, start: nat, db: Db, s: Session)
    requires SessionOk(env, start, db, s) && s.pc.NextCall? && SessionApproved(env, db, s)
    requires ApprovalsAgree(oracle, db.approvals)
    ensures SessionAgrees(env, oracle, db, s.(pc := Decide(env, db, s, s.pc.i)))
  {
  }

  lemma DispatchAgrees(env: Env, oracle: Oracle, start: nat, db: Db, s: Session, outcome: Outcome)
    requires SessionOk(env, start, db, s) && s.pc.Dispatch? && s.pc.left > 0 && SessionApproved(env, db, s)
    requires ApprovalsAgree(oracle, db.approvals) && outcome == oracle.tool(s.pending[s.pc.i])
    requires env.tools[s.pending[s.pc.i].name] + 1 > 0
    ensures SessionAgrees(env, oracle, db, s.(pc := AfterDispatch(env, s.pc.i, s.pc.left, outcome)))
  {
  }

  /** A dispatch is only started for a tool that gets at least one attempt. */
  predicate DispatchHasAttempts(env: Env, s: Session) {
    s.pc.Dispatch? && s.pc.i < |s.pending| && s.pending[s.pc.i].name in env.tools ==>
      env.tools[s.pending[s.pc.i].name] + 1 > 0
  }

  lemma StepHasAttempts(env: Env, schema: Schema, db: Db, s: Session, sid: nat, asOf: Time, outcome: Outcome)
    requires DispatchHasAttempts(env, s)
    ensures DispatchHasAttempts(env, StepSession(env, schema, db, s, sid, asOf, outcome).1)
  {
  }

  lemma OnlyThreeStepsObserve(env: Env, db: Db, s: Session, sid: nat, asOf: Time, outcome: Outcome)
    requires !s.pc.NextCall? && !s.pc.Dispatch? && !s.pc.CommitIntent?
    ensures !StepSession(env, FULL, db, s, sid, asOf, outcome).1.pc.CommitObservation?
  {
  }

  lemma IntentAgrees(env: Env, oracle: Oracle, start: nat, db: Db, s: Session, sid: nat, asOf: Time, outcome: Outcome)
    requires DbOk(env, start, db) && SessionOk(env, start, db, s) && s.pc.CommitIntent? && SessionApproved(env, db, s)
    requires ApprovalsAgree(oracle, db.approvals)
    ensures var (db', s') := StepSession(env, FULL, db, s, sid, asOf, outcome); SessionAgrees(env, oracle, db', s')
  {
    CurrentWasCurrent(env, start, db, s, sid, asOf, outcome);
  }

  lemma StepKeepsSessionAgrees(env: Env, oracle: Oracle, start: nat, db: Db, s: Session, sid: nat, asOf: Time,
                               outcome: Outcome)
    requires DbOk(env, start, db) && SessionOk(env, start, db, s) && SessionApproved(env, db, s)
    requires DispatchHasAttempts(env, s) && ApprovalsAgree(oracle, db.approvals)
    requires s.pc.Dispatch? && s.pc.i < |s.pending| ==> outcome == oracle.tool(s.pending[s.pc.i])
    ensures var (db', s') := StepSession(env, FULL, db, s, sid, asOf, outcome); SessionAgrees(env, oracle, db', s')
  {
    if s.pc.NextCall? {
      DecideAgrees(env, oracle, start, db, s);
    } else if s.pc.Dispatch? {
      if s.pc.left > 0 {
        DispatchAgrees(env, oracle, start, db, s, outcome);
      }
    } else if s.pc.CommitIntent? {
      IntentAgrees(env, oracle, start, db, s, sid, asOf, outcome);
    } else {
      OnlyThreeStepsObserve(env, db, s, sid, asOf, outcome);
    }
  }

  lemma AppendAgrees(env: Env, oracle: Oracle, start: nat, rows: seq<Row>, row: Row)
    requires RowsAgree(env, oracle, start, rows) && RecordAgrees(env, oracle, rows, row)
    ensures RowsAgree(env, oracle, start, rows + [row])
  {
    var more := rows + [row];
    forall i | start <= i < |more|
      ensures RecordAgrees(env, oracle, more[..i], more[i])
    {
      assert more[..i] == rows[..i];
      if i < |rows| {
        assert RecordAgrees(env, oracle, rows[..i], rows[i]);
      } else {
        assert rows[..i] == rows;
      }
    }
  }

  lemma StepKeepsRowsAgree(env: Env, oracle: Oracle, start: nat, db: Db, s: Session, sid: nat, asOf: Time,
                           outcome: Outcome)
    requires DbOk(env, start, db) && SessionOk(env, start, db, s) && SessionAgrees(env, oracle, db, s)
    requires RowsAgree(env, oracle, start, db.rows)
    ensures RowsAgree(env, oracle, start, StepSession(env, FULL, db, s, sid, asOf, outcome).0.rows)
  {
    if s.pc.CommitObservation? {
      var call := s.pending[s.pc.i];
      var row := NewRow(s, Observation(call.id, call.name, s.pc.result), Some(call.id), Some(KeyOf(env.job, call)), s.pc.cost);
      AcceptedIsCurrent(env, start, db, s, row);
      if Accepts(FULL, db.rows, row) {
        FreeIsUnobserved(db.rows, KeyOf(env.job, call));
        HeadOfPass(env, db, s, s.pc.i);
        AppendAgrees(env, oracle, start, db.rows, row);
      }
    } else {
      NoObservationAppended(env, db, s, sid, asOf, outcome);
      var rows := StepSession(env, FULL, db, s, sid, asOf, outcome).0.rows;
      if rows != db.rows {
        AppendAgrees(env, oracle, start, db.rows, rows[|db.rows|]);
      }
    }
  }

  lemma NoObservationAppended(env: Env, db: Db, s: Session, sid: nat, asOf: Time, outcome: Outcome)
    requires !s.pc.CommitObservation?
    ensures var rows := StepSession(env, FULL, db, s, sid, asOf, outcome).0.rows;
            || rows == db.rows
            || (|rows| == |db.rows| + 1 && rows == db.rows + [rows[|db.rows|]] && !rows[|db.rows|].body.Observation?)
  {
  }

  ghost predicate FullInv(env: Env, oracle: Oracle, start: nat, w: World) {
    AgreeInv(env, oracle, start, w) && forall k :: 0 <= k < |w.sessions| ==> DispatchHasAttempts(env, w.sessions[k])
  }

  lemma MovedKeepsAgree(env: Env, oracle: Oracle, start: nat, w: World, sid: nat, db': Db, s': Session)
    requires FullInv(env, oracle, start, w) && sid < |w.sessions| && Grows(w.db, db')
    requires ApprovalInv(env, start, World(db', w.sessions[sid := s']))
    requires ApprovalsAgree(oracle, db'.approvals) && RowsAgree(env, oracle, start, db'.rows)
    requires SessionAgrees(env, oracle, db', s') && DispatchHasAttempts(env, s')
    ensures FullInv(env, oracle, start, World(db', w.sessions[sid := s']))
  {
    var sessions := w.sessions[sid := s'];
    forall k | 0 <= k < |sessions|
      ensures SessionAgrees(env, oracle, db', sessions[k]) && DispatchHasAttempts(env, sessions[k])
    {
      if k != sid {
        assert SessionAgrees(env, oracle, w.db, w.sessions[k]) && DispatchHasAttempts(env, w.sessions[k]);
        assert SessionOk(env, start, w.db, w.sessions[k]);
      }
    }
  }

  lemma IdleKeepsAgree(env: Env, oracle: Oracle, start: nat, w: World, w': World)
    requires FullInv(env, oracle, start, w) && Idle(w, w')
    requires ApprovalInv(env, start, w') && ApprovalsAgree(oracle, w'.db.approvals)
    ensures FullInv(env, oracle, start, w')
  {
    forall k | 0 <= k < |w'.sessions|
      ensures SessionAgrees(env, oracle, w'.db, w'.sessions[k]) && DispatchHasAttempts(env, w'.sessions[k])
    {
      if k < |w.sessions| {
        assert SessionAgrees(env, oracle, w.db, w.sessions[k]) && DispatchHasAttempts(env, w.sessions[k]);
      }
    }
  }

  lemma IdleApprovalsAgree(env: Env, oracle: Oracle, w: World, a: Action)
    requires !Moves(w, a) && Agrees(oracle, w, a) && ApprovalsAgree(oracle, w.db.approvals)
    ensures ApprovalsAgree(oracle, Next(env, FULL, w, a).db.approvals)
  {
  }

  lemma NextKeepsAgree(env: Env, oracle: Oracle, start: nat, w: World, a: Action)
    requires FullInv(env, oracle, start, w) && Agrees(oracle, w, a)
    ensures FullInv(env, oracle, start, Next(env, FULL, w, a))
  {
    NextKeepsApproved(env, start, w, a);
    if Moves(w, a) {
      var s := w.sessions[a.sid];
      var (db', s') := StepSession(env, FULL, w.db, s, a.sid, a.asOf, a.outcome);
      assert SessionOk(env, start, w.db, s) && SessionApproved(env, w.db, s);
      assert SessionAgrees(env, oracle, w.db, s) && DispatchHasAttempts(env, s);
      StepGrows(env, FULL, w.db, s, a.sid, a.asOf, a.outcome);
      StepApprovalsAgree(env, oracle, w.db, s, a.sid, a.asOf, a.outcome);
      StepHasAttempts(env, FULL, w.db, s, a.sid, a.asOf, a.outcome);
      StepKeepsSessionAgrees(env, oracle, start, w.db, s, a.sid, a.asOf, a.outcome);
      StepKeepsRowsAgree(env, oracle, start, w.db, s, a.sid, a.asOf, a.outcome);
      MovedKeepsAgree(env, oracle, start, w, a.sid, db', s');
    } else {
      MovesOrIdle(env, FULL, w, a);
      IdleApprovalsAgree(env, oracle, w, a);
      IdleKeepsAgree(env, oracle, start, w, Next(env, FULL, w, a));
    }
  }

  lemma StepApprovalsAgree(env: Env, oracle: Oracle, db: Db, s: Session, sid: nat, asOf: Time, outcome: Outcome)
    requires ApprovalsAgree(oracle, db.approvals)
    ensures ApprovalsAgree(oracle, StepSession(env, FULL, db, s, sid, asOf, outcome).0.approvals)
  {
  }

  lemma {:induction false} AlwaysAgrees(env: Env, oracle: Oracle, now: Time, rows: seq<Row>, schedule: seq<Action>)
    requires StartOk(env.job, rows)
    requires AgreesAll(env, oracle, Enqueued(now, rows), schedule)
    ensures FullInv(env, oracle, |rows|, Run(env, FULL, Enqueued(now, rows), schedule))
    ensures CleanReads(env, Enqueued(now, rows), schedule)
  {
    if schedule != [] {
      AlwaysAgrees(env, oracle, now, rows, schedule[..|schedule| - 1]);
      NextKeepsAgree(env, oracle, |rows|, Run(env, FULL, Enqueued(now, rows), schedule[..|schedule| - 1]),
                     schedule[|schedule| - 1]);
    }
  }

  // ---------------------------------------------------------------------------
  // The reference run
  // ---------------------------------------------------------------------------

  /** A decision without its provenance: which attempt of which worker recorded it, and at which seq. */
  function Erase(row: Row): Row {
    row.(seqNo := 0, worker := "", attempt := 0)
  }

  predicate IsDecision(row: Row) {
    row.body.PlanStep? || row.body.Observation?
  }

  /** The initial ledger followed by the plans and observations recorded since. */
  function Decisions(start: nat, rows: seq<Row>): seq<Row> {
    if |rows| <= start then rows
    else
      var before, last := Decisions(start, rows[..|rows| - 1]), rows[|rows| - 1];
      if IsDecision(last) then before + [Erase(last)] else before
  }

  /** `rows[i]` is a plan the model meant as its last. */
  predicate IsFinalPlan(env: Env, before: seq<Row>, row: Row) {
    && row.body.PlanStep? && env.agent.Some?
    && match env.agent.value(StateOf(env.job, before))
       case Planned(plan) => plan.IsFinal()
       case Raised(_) => false
  }

  /** The next decision of an undisturbed run, if it goes on. */
  function Continue(env: Env, oracle: Oracle, rows: seq<Row>): Option<Row> {
    var pending := PendingCalls(env.job, rows);
    if PlanCount(rows) >= env.maxSteps then None
    else if pending != [] then
      match ResultOf(env, oracle, pending[0])
      case None => None
      case Some((result, cost)) =>
        var call := pending[0];
        Some(Row(0, Observation(call.id, call.name, result), Some(call.id), Some(KeyOf(env.job, call)), cost, "", 0))
    else if env.agent.None? then None
    else match env.agent.value(StateOf(env.job, rows))
      case Raised(_) => None
      case Planned(plan) =>
        if WouldExceed(env.job.cap, TotalCost(rows), plan.cost) then None
        else Some(Row(0, PlanStep(plan.content, plan.calls), None, None, plan.cost, "", 0))
  }

  // ---------------------------------------------------------------------------
  // The folds see only decisions
  // ---------------------------------------------------------------------------

  predicate NoFinalStep(start: nat, rows: seq<Row>) {
    forall i :: start <= i < |rows| ==> !rows[i].body.FinalStep?
  }

  /** Two ledgers the engine cannot tell apart. */
  predicate SameFolds(job: Job, rows: seq<Row>, others: seq<Row>) {
    && Messages(job, rows) == Messages(job, others) && Observed(rows) == Observed(others)
    && LastCalls(rows) == LastCalls(others) && PlanCount(rows) == PlanCount(others)
    && TotalCost(rows) == TotalCost(others)
  }

  lemma DecisionKeepsFolds(job: Job, rows: seq<Row>, others: seq<Row>, row: Row)
    requires SameFolds(job, rows, others) && IsDecision(row)
    ensures SameFolds(job, rows + [row], others + [Erase(row)])
  {
    FoldAppend(job, rows, row);
    FoldAppend(job, others, Erase(row));
    assert (rows + [row])[..|rows|] == rows;
    assert (others + [Erase(row)])[..|others|] == others;
  }

  lemma OtherRowKeepsFolds(job: Job, rows: seq<Row>, others: seq<Row>, row: Row)
    requires SameFolds(job, rows, others) && !IsDecision(row) && !row.body.FinalStep? && row.cost == 0
    ensures SameFolds(job, rows + [row], others)
  {
    FoldAppend(job, rows, row);
  }

  lemma {:induction false} FoldsOfDecisions(env: Env, start: nat, rows: seq<Row>, n: nat)
    requires LedgerOk(env, start, rows) && start <= n <= |rows| && NoFinalStep(start, rows[..n])
    ensures SameFolds(env.job, rows[..n], Decisions(start, rows[..n]))
  {
    if n > start {
      var init, last := rows[..n - 1], rows[n - 1];
      assert rows[..n] == init + [last] && rows[..n][..n - 1] == init && rows[..n][n - 1] == last;
      assert NoFinalStep(start, init) by {
        assert forall i :: 0 <= i < n - 1 ==> init[i] == rows[..n][i];
      }
      FoldsOfDecisions(env, start, rows, n - 1);
      assert Shaped(env.job, rows[..n - 1], rows[n - 1]);
      if IsDecision(last) {
        DecisionKeepsFolds(env.job, init, Decisions(start, init), last);
      } else {
        OtherRowKeepsFolds(env.job, init, Decisions(start, init), last);
      }
    }
  }

  /** Every decision on the ledger is the one the reference makes after the decisions before it. */
  lemma DecisionIsReferences(env: Env, oracle: Oracle, start: nat, rows: seq<Row>, i: nat)
    requires LedgerOk(env, start, rows) && RowsAgree(env, oracle, start, rows)
    requires start <= i < |rows| && IsDecision(rows[i]) && NoFinalStep(start, rows[..i])
    ensures Continue(env, oracle, Decisions(start, rows[..i])) == Some(Erase(rows[i]))
    ensures var d := Decisions(start, rows[..i]);
            IsFinalPlan(env, d, Erase(rows[i])) == IsFinalPlan(env, rows[..i], rows[i])
  {
    FoldsOfDecisions(env, start, rows, i);
    assert Shaped(env.job, rows[..i], rows[i]) && Decided(env, rows[..i], rows[i]);
    assert RecordAgrees(env, oracle, rows[..i], rows[i]);
  }

  /** Row `j` is a final step or a final plan. */
  predicate EndsRun(env: Env, rows: seq<Row>, j: nat)
    requires j < |rows|
  {
    rows[j].body.FinalStep? || IsFinalPlan(env, rows[..j], rows[j])
  }

  /** Nothing among rows `start` to `n` ends the run. */
  predicate Unfinished(env: Env, start: nat, rows: seq<Row>, n: nat)
    requires n <= |rows|
  {
    forall j :: start <= j < n ==> !EndsRun(env, rows, j)
  }

  /** The first `n` rows reach at most up to, and including, the first row that ends the run. */
  predicate UpToEnd(env: Env, start: nat, rows: seq<Row>, n: nat) {
    start <= n <= |rows| && (n > start ==> Unfinished(env, start, rows, n - 1))
  }

  lemma UnfinishedHasNoFinalStep(env: Env, start: nat, rows: seq<Row>, n: nat)
    requires n <= |rows| && Unfinished(env, start, rows, n)
    ensures NoFinalStep(start, rows[..n])
  {
    forall i | start <= i < n
      ensures !rows[..n][i].body.FinalStep?
    {
      assert !EndsRun(env, rows, i);
    }
  }

  /** If the decisions recorded so far end in a final plan, so does the ledger's prefix. */
  lemma {:induction false} LastDecisionUnfinished(env: Env, oracle: Oracle, start: nat, rows: seq<Row>, n: nat)
    requires LedgerOk(env, start, rows) && RowsAgree(env, oracle, start, rows)
    requires start <= n <= |rows| && Unfinished(env, start, rows, n)
    ensures var d := Decisions(start, rows[..n]);
            |d| >= start && (|d| > start ==> !IsFinalPlan(env, d[..|d| - 1], d[|d| - 1]))
  {
    if n > start {
      LastDecisionUnfinished(env, oracle, start, rows, n - 1);
      assert rows[..n][..n - 1] == rows[..n - 1];
      if IsDecision(rows[n - 1]) {
        UnfinishedHasNoFinalStep(env, start, rows, n - 1);
        DecisionIsReferences(env, oracle, start, rows, n - 1);
        assert !EndsRun(env, rows, n - 1);
        var d := Decisions(start, rows[..n - 1]);
        assert (d + [Erase(rows[n - 1])])[..|d|] == d;
      }
    }
  }

  /** Entry `i` is what the undisturbed run decides after the entries before it. */
  predicate Follows(env: Env, oracle: Oracle, start: nat, d: seq<Row>, i: nat)
    requires i < |d|
  {
    && (i > start ==> !IsFinalPlan(env, d[..i - 1], d[i - 1]))
    && Continue(env, oracle, d[..i]) == Some(d[i])
  }

  ghost predicate IsTrace(env: Env, oracle: Oracle, start: nat, d: seq<Row>) {
    start <= |d| && forall i {:trigger Follows(env, oracle, start, d, i)} :: start <= i < |d| ==>
      Follows(env, oracle, start, d, i)
  }

  lemma AppendToTrace(env: Env, oracle: Oracle, start: nat, d: seq<Row>, row: Row)
    requires IsTrace(env, oracle, start, d)
    requires |d| > start ==> !IsFinalPlan(env, d[..|d| - 1], d[|d| - 1])
    requires Continue(env, oracle, d) == Some(row)
    ensures IsTrace(env, oracle, start, d + [row])
  {
    var more := d + [row];
    forall i | start <= i < |more|
      ensures Follows(env, oracle, start, more, i)
    {
      assert more[..i] == d[..i];
      if i > start {
        assert more[..i - 1] == d[..i - 1];
      }
      if i < |d| {
        assert Follows(env, oracle, start, d, i);
      } else {
        assert d[..i] == d;
      }
    }
  }

  lemma TraceStartsWith(start: nat, rows: seq<Row>, n: nat)
    requires start <= n <= |rows|
    ensures rows[..start] <= Decisions(start, rows[..n])
  {
    if n > start {
      assert rows[..n][..n - 1] == rows[..n - 1];
      TraceStartsWith(start, rows, n - 1);
    }
  }

  /** The decisions of any ledger prefix that has at most its last row final are a trace of the undisturbed run. */
  lemma {:induction false} DecisionsAreTrace(env: Env, oracle: Oracle, start: nat, rows: seq<Row>, n: nat)
    requires LedgerOk(env, start, rows) && RowsAgree(env, oracle, start, rows) && UpToEnd(env, start, rows, n)
    ensures IsTrace(env, oracle, start, Decisions(start, rows[..n]))
  {
    if n > start {
      DecisionsAreTrace(env, oracle, start, rows, n - 1);
      assert rows[..n][..n - 1] == rows[..n - 1];
      if IsDecision(rows[n - 1]) {
        UnfinishedHasNoFinalStep(env, start, rows, n - 1);
        DecisionIsReferences(env, oracle, start, rows, n - 1);
        LastDecisionUnfinished(env, oracle, start, rows, n - 1);
        AppendToTrace(env, oracle, start, Decisions(start, rows[..n - 1]), Erase(rows[n - 1]));
      }
    }
  }

  /** There is only one undisturbed run: of two traces from the same ledger, one continues the other. */
  lemma {:induction false} TracesAgree(env: Env, oracle: Oracle, start: nat, d: seq<Row>, d': seq<Row>, n: nat)
    requires IsTrace(env, oracle, start, d) && IsTrace(env, oracle, start, d')
    requires d[..start] == d'[..start] && start <= n <= |d| && n <= |d'|
    ensures d[..n] == d'[..n]
  {
    if n > start {
      TracesAgree(env, oracle, start, d, d', n - 1);
      assert Follows(env, oracle, start, d, n - 1) && Follows(env, oracle, start, d', n - 1);
      assert d[..n] == d[..n - 1] + [d[n - 1]] && d'[..n] == d'[..n - 1] + [d'[n - 1]];
    }
  }

  /** Crash transparency: however a schedule crashes, stalls and re-leases workers, the plans and observations it
      records, up to and including the first final plan, are those of the undisturbed run, in its order. */
  lemma CrashTransparent(env: Env, oracle: Oracle, now: Time, rows: seq<Row>, schedule: seq<Action>, n: nat)
    requires StartOk(env.job, rows)
    requires AgreesAll(env, oracle, Enqueued(now, rows), schedule)
    requires UpToEnd(env, |rows|, Run(env, FULL, Enqueued(now, rows), schedule).db.rows, n)
    ensures var d := Decisions(|rows|, Run(env, FULL, Enqueued(now, rows), schedule).db.rows[..n]);
            rows <= d && IsTrace(env, oracle, |rows|, d)
  {
    AlwaysAgrees(env, oracle, now, rows, schedule);
    var ledger := Run(env, FULL, Enqueued(now, rows), schedule).db.rows;
    DecisionsAreTrace(env, oracle, |rows|, ledger, n);
    TraceStartsWith(|rows|, ledger, n);
    LedgerAlwaysOk(env, now, rows, []);
    AppendOnly(env, |rows|, Enqueued(now, rows), schedule);
    assert ledger[..|rows|] == rows;
  }

  /** So any two schedules, one of them crash-free for instance, agree as far as both go: the decisions of one are a
      prefix of the other's. */
  lemma SchedulesAgree(env: Env, oracle: Oracle, rows: seq<Row>, now: Time, schedule: seq<Action>, n: nat,
                       now': Time, schedule': seq<Action>, n': nat)
    requires StartOk(env.job, rows)
    requires AgreesAll(env, oracle, Enqueued(now, rows), schedule)
    requires UpToEnd(env, |rows|, Run(env, FULL, Enqueued(now, rows), schedule).db.rows, n)
    requires AgreesAll(env, oracle, Enqueued(now', rows), schedule')
    requires UpToEnd(env, |rows|, Run(env, FULL, Enqueued(now', rows), schedule').db.rows, n')
    ensures var d := Decisions(|rows|, Run(env, FULL, Enqueued(now, rows), schedule).db.rows[..n]);
            var d' := Decisions(|rows|, Run(env, FULL, Enqueued(now', rows), schedule').db.rows[..n']);
            d <= d' || d' <= d
  {
    CrashTransparent(env, oracle, now, rows, schedule, n);
    CrashTransparent(env, oracle, now', rows, schedule', n');
    TracesAreOrdered(env, oracle, rows,
                     Decisions(|rows|, Run(env, FULL, Enqueued(now, rows), schedule).db.rows[..n]),
                     Decisions(|rows|, Run(env, FULL, Enqueued(now', rows), schedule').db.rows[..n']));
  }

  lemma TracesAreOrdered(env: Env, oracle: Oracle, rows: seq<Row>, d: seq<Row>, d': seq<Row>)
    requires rows <= d && IsTrace(env, oracle, |rows|, d)
    requires rows <= d' && IsTrace(env, oracle, |rows|, d')
    ensures d <= d' || d' <= d
  {
    assert d[..|rows|] == rows == d'[..|rows|];
    var n := if |d| <= |d'| then |d| else |d'|;
    TracesAgree(env, oracle, |rows|, d, d', n);
    assert d[..|d|] == d && d'[..|d'|] == d';
  }
}
