/** The optimistic lock. No lease guards an insert into the ledger; UNIQUE(run_id, seq) and the private cursor of a
    session do. Whatever sessions stall, crash or outlive their lease, every row of the ledger is justified by
    exactly the rows before it. */
module LedgerInvariant {
  import opened Values
  import opened Models
  import opened Rebuild
  import opened Protocol

  // ---------------------------------------------------------------------------
  // What justifies a row
  // ---------------------------------------------------------------------------

  /** The form of a row, given the rows before it: a plan only when nothing is pending, an observation only of the
      first pending call, a final step only straight after a plan. */
  predicate Shaped(job: Job, before: seq<Row>, row: Row) {
    var pending := PendingCalls(job, before);
    match row.body
    case PlanStep(_, _) => pending == [] && row.callId == None && row.key == None
    case IntentStep(call) =>
      && call in LastCalls(before) && row.cost == 0
      && row.callId == Some(call.id) && row.key == Some(Intent(KeyOf(job, call)))
    case Observation(id, name, _) =>
      && pending != [] && id == pending[0].id && name == pending[0].name
      && row.callId == Some(id) && row.key == Some(KeyOf(job, pending[0]))
    case WaitStep(call) =>
      call in LastCalls(before) && row.callId == Some(call.id) && row.key == None && row.cost == 0
    case FinalStep(_) =>
      && before != [] && before[|before| - 1].body.PlanStep?
      && row.callId == None && row.key == None && row.cost == 0
    case ErrorStep(_, _) => row.callId == None && row.key == None && row.cost == 0
  }

  predicate MayRun(env: Env, call: ToolCall) {
    env.policy(call) == Allow || env.policy(call) == RequireApproval
  }

  /** What the engine may record as the result of `call`. A tool's own result needs a committed intent. */
  ghost predicate ResultJustified(env: Env, before: seq<Row>, call: ToolCall, result: Json, cost: int) {
    || (env.policy(call) == Deny && result == POLICY_DENIED && cost == 0)
    || (env.policy(call) == RequireApproval && result == REJECTED && cost == 0)
    || (MayRun(env, call) && call.name !in env.tools && result == UNKNOWN_TOOL && cost == 0)
    || (MayRun(env, call) && call.name in env.tools && HasKey(before, Intent(KeyOf(env.job, call)))
        && (cost == CostOf(env, result) || (cost == 0 && exists detail :: result == ToolErrorResult(detail))))
  }

  /** `plan` is the model's answer to the state rebuilt from exactly these rows, and the guards let it through. */
  predicate PlannedFrom(env: Env, before: seq<Row>, plan: Plan) {
    && env.agent.Some?
    && env.agent.value(StateOf(env.job, before)) == Planned(plan)
    && PlanCount(before) < env.maxSteps
    && !WouldExceed(env.job.cap, TotalCost(before), plan.cost)
  }

  /** The content of a row, given the rows before it. */
  ghost predicate Decided(env: Env, before: seq<Row>, row: Row) {
    match row.body
    case PlanStep(content, calls) =>
      exists plan :: PlannedFrom(env, before, plan)
                  && plan.content == content && plan.calls == calls && plan.cost == row.cost
    case IntentStep(call) => MayRun(env, call) && call.name in env.tools
    case Observation(_, _, result) =>
      && PendingCalls(env.job, before) != [] && PlanCount(before) < env.maxSteps
      && ResultJustified(env, before, PendingCalls(env.job, before)[0], result, row.cost)
    case WaitStep(call) => env.policy(call) == RequireApproval
    case FinalStep(output) =>
      && before != []
      && exists plan :: PlannedFrom(env, before[..|before| - 1], plan) && plan.IsFinal() && plan.output == output
    case ErrorStep(_, _) => true
  }

  /** Every row has its form; every row added since the run was enqueued is decided by the rows before it. */
  ghost predicate Justified(env: Env, start: nat, rows: seq<Row>) {
    && (forall i {:trigger Shaped(env.job, rows[..i], rows[i])} :: 0 <= i < |rows| ==>
          Shaped(env.job, rows[..i], rows[i]))
    && (forall i {:trigger Decided(env, rows[..i], rows[i])} :: start <= i < |rows| ==>
          Decided(env, rows[..i], rows[i]))
  }

  ghost predicate KeysDistinct(rows: seq<Row>) {
    forall i, j :: 0 <= i < j < |rows| && rows[i].key.Some? ==> rows[i].key != rows[j].key
  }

  ghost predicate LedgerOk(env: Env, start: nat, rows: seq<Row>) {
    start <= |rows| && GapFree(rows) && KeysDistinct(rows) && Justified(env, start, rows)
  }

  /** A ledger a run may be enqueued with. */
  ghost predicate StartOk(job: Job, rows: seq<Row>) {
    && GapFree(rows) && KeysDistinct(rows)
    && forall i {:trigger Shaped(job, rows[..i], rows[i])} :: 0 <= i < |rows| ==> Shaped(job, rows[..i], rows[i])
  }

  // ---------------------------------------------------------------------------
  // The invariant
  // ---------------------------------------------------------------------------

  /** Only a session whose cursor is the end of the ledger can still commit. */
  predicate Current(db: Db, s: Session) {
    s.local.cursor == |db.rows|
  }

  /** Calls before `i` are observed by now, and what is left of the snapshot is what is left on the ledger. */
  predicate PassOk(env: Env, db: Db, s: Session, i: nat) {
    && i <= |s.pending|
    && s.steps <= db.rows
    && s.pending == PendingCalls(env.job, s.steps)
    && (Current(db, s) ==>
          && LastCalls(db.rows) == LastCalls(s.steps) && PlanCount(db.rows) < env.maxSteps
          && PendingCalls(env.job, db.rows) == Unobserved(env.job, s.pending[i..], Observed(db.rows)))
  }

  ghost predicate PcOk(env: Env, start: nat, db: Db, s: Session) {
    var n := |db.rows|;
    match s.pc
    case LoopTop => env.agent.Some?
    case CheckCancel => env.agent.Some?
    case LoadLedger => env.agent.Some?
    case CommitPlan(plan) =>
      Current(db, s) ==> PendingCalls(env.job, db.rows) == [] && PlannedFrom(env, db.rows, plan)
    case CommitFinal(plan) =>
      Current(db, s) ==>
        n > start && db.rows[n - 1].body.PlanStep? && PlannedFrom(env, db.rows[..n - 1], plan) && plan.IsFinal()
    case CommitSucceeded(output) => Current(db, s) ==> n > start && db.rows[n - 1].body == FinalStep(output)
    case NextCall(i) => env.agent.Some? && PassOk(env, db, s, i)
    case CommitObservation(i, result, cost) =>
      && env.agent.Some? && PassOk(env, db, s, i) && i < |s.pending|
      && ResultJustified(env, db.rows, s.pending[i], result, cost)
    case CommitWait(i) => PassOk(env, db, s, i) && i < |s.pending| && env.policy(s.pending[i]) == RequireApproval
    case CommitIntent(i) =>
      && env.agent.Some? && PassOk(env, db, s, i) && i < |s.pending|
      && MayRun(env, s.pending[i]) && s.pending[i].name in env.tools
    case Dispatch(i, left) =>
      && env.agent.Some? && PassOk(env, db, s, i) && i < |s.pending|
      && MayRun(env, s.pending[i]) && s.pending[i].name in env.tools
      && HasKey(db.rows, Intent(KeyOf(env.job, s.pending[i])))
    case CommitParked => Current(db, s) ==> n > start && db.rows[n - 1].body.WaitStep?
    case CommitFailed(class_, detail) =>
      Current(db, s) ==> n > start && db.rows[n - 1].body == ErrorStep(class_, detail)
    case _ => true
  }

  ghost predicate SessionOk(env: Env, start: nat, db: Db, s: Session) {
    s.local.cursor <= |db.rows| && PcOk(env, start, db, s)
  }

  ghost predicate DbOk(env: Env, start: nat, db: Db) {
    LedgerOk(env, start, db.rows) && db.run.cursor == |db.rows|
  }

  ghost predicate Inv(env: Env, start: nat, w: World) {
    DbOk(env, start, w.db) && forall k :: 0 <= k < |w.sessions| ==> SessionOk(env, start, w.db, w.sessions[k])
  }

  // ---------------------------------------------------------------------------
  // Preservation
  // ---------------------------------------------------------------------------

  lemma HasKeyMonotone(rows: seq<Row>, more: seq<Row>, key: Key)
    requires rows <= more && HasKey(rows, key)
    ensures HasKey(more, key)
  {
    var i :| 0 <= i < |rows| && rows[i].key == Some(key);
    assert more[i].key == Some(key);
  }

  lemma AppendKeepsLedger(env: Env, start: nat, rows: seq<Row>, row: Row)
    requires LedgerOk(env, start, rows)
    requires row.seqNo == |rows| + 1 && KeyFree(rows, row.key)
    requires Shaped(env.job, rows, row) && Decided(env, rows, row)
    ensures LedgerOk(env, start, rows + [row])
  {
    var more := rows + [row];
    forall i | 0 <= i < |more|
      ensures Shaped(env.job, more[..i], more[i])
      ensures i >= start ==> Decided(env, more[..i], more[i])
    {
      assert more[..i] == rows[..i];
      if i == |rows| {
        assert rows[..i] == rows;
      } else {
        assert Shaped(env.job, rows[..i], rows[i]);
        assert i >= start ==> Decided(env, rows[..i], rows[i]);
      }
    }
  }

  lemma StartOkAppend(job: Job, rows: seq<Row>, row: Row)
    requires StartOk(job, rows) && Shaped(job, rows, row) && row.seqNo == |rows| + 1 && KeyFree(rows, row.key)
    ensures StartOk(job, rows + [row])
  {
    var more := rows + [row];
    forall i | 0 <= i < |more|
      ensures Shaped(job, more[..i], more[i])
    {
      assert more[..i] == rows[..i];
      if i == |rows| {
        assert rows[..i] == rows;
      } else {
        assert Shaped(job, rows[..i], rows[i]);
      }
    }
  }

  lemma SeqFreeIsEnd(rows: seq<Row>, cursor: nat)
    requires GapFree(rows) && cursor <= |rows|
    ensures SeqFree(rows, cursor + 1) <==> cursor == |rows|
  {
    if cursor < |rows| {
      assert rows[cursor].seqNo == cursor + 1;
    }
  }

  /** The lock itself: an insert gets through exactly when the session's cursor is the end of the ledger and the
      key is free. */
  lemma AcceptedIsCurrent(env: Env, start: nat, db: Db, s: Session, row: Row)
    requires DbOk(env, start, db) && s.local.cursor <= |db.rows| && row.seqNo == s.local.cursor + 1
    ensures Accepts(FULL, db.rows, row) <==> Current(db, s) && KeyFree(db.rows, row.key)
  {
    SeqFreeIsEnd(db.rows, s.local.cursor);
  }

  lemma CommitKeepsDb(env: Env, start: nat, db: Db, s: Session, sid: nat, row: Row, next: Pc)
    requires DbOk(env, start, db) && s.local.cursor <= |db.rows| && row.seqNo == s.local.cursor + 1
    requires Current(db, s) && KeyFree(db.rows, row.key) ==>
               Shaped(env.job, db.rows, row) && Decided(env, db.rows, row)
    ensures var (db', s') := CommitStep(FULL, db, s, sid, row, next);
            && DbOk(env, start, db')
            && (Accepts(FULL, db.rows, row) ==>
                  Current(db, s) && KeyFree(db.rows, row.key) && Current(db', s') && db'.rows == db.rows + [row])
  {
    AcceptedIsCurrent(env, start, db, s, row);
    if Accepts(FULL, db.rows, row) {
      AppendKeepsLedger(env, start, db.rows, row);
    }
  }

  /** What a step of one session leaves for the others: rows are only added, and a session that is overtaken is no
      longer current. */
  ghost predicate Grows(db: Db, db': Db) {
    db.rows == db'.rows || (|db.rows| < |db'.rows| && db.rows <= db'.rows)
  }

  lemma OthersKeepOk(env: Env, start: nat, db: Db, db': Db, s: Session)
    requires SessionOk(env, start, db, s) && Grows(db, db')
    ensures SessionOk(env, start, db', s)
  {
    if s.pc.Dispatch? {
      HasKeyMonotone(db.rows, db'.rows, Intent(KeyOf(env.job, s.pending[s.pc.i])));
    } else if s.pc.CommitObservation? {
      ResultMonotone(env, db.rows, db'.rows, s.pending[s.pc.i], s.pc.result, s.pc.cost);
    }
  }

  lemma ResultMonotone(env: Env, rows: seq<Row>, more: seq<Row>, call: ToolCall, result: Json, cost: int)
    requires rows <= more && ResultJustified(env, rows, call, result, cost)
    ensures ResultJustified(env, more, call, result, cost)
  {
    if HasKey(rows, Intent(KeyOf(env.job, call))) {
      HasKeyMonotone(rows, more, Intent(KeyOf(env.job, call)));
    }
  }

  /** The first call of the snapshot that is left is the first pending call of the ledger, unless a duplicate of it
      was observed in this very pass. */
  lemma HeadOfPass(env: Env, db: Db, s: Session, i: nat)
    requires PassOk(env, db, s, i) && i < |s.pending| && Current(db, s)
    ensures s.pending[i] in LastCalls(db.rows)
    ensures KeyOf(env.job, s.pending[i]) !in Observed(db.rows) ==>
              PendingCalls(env.job, db.rows) != [] && PendingCalls(env.job, db.rows)[0] == s.pending[i]
  {
    assert s.pending[i] in s.pending;
    assert s.pending[i..][0] == s.pending[i];
  }

  lemma FreeIsUnobserved(rows: seq<Row>, key: Key)
    requires KeyFree(rows, Some(key))
    ensures key !in Observed(rows)
  {
    ObservedSound(rows, key);
  }

  lemma StepLoad(env: Env, start: nat, db: Db, s: Session, sid: nat, asOf: Time, outcome: Outcome)
    requires DbOk(env, start, db) && SessionOk(env, start, db, s) && s.pc.LoadLedger?
    ensures var (db', s') := StepSession(env, FULL, db, s, sid, asOf, outcome);
            db' == db && SessionOk(env, start, db', s')
  {
    OrderBySeqIsIdentity(db.rows);
    var pending := PendingCalls(env.job, db.rows);
    assert pending[0..] == pending;
    UnobservedTwice(env.job, LastCalls(db.rows), Observed(db.rows), Observed(db.rows));
  }

  lemma StepCommitPlan(env: Env, start: nat, db: Db, s: Session, sid: nat, asOf: Time, outcome: Outcome)
    requires DbOk(env, start, db) && SessionOk(env, start, db, s) && s.pc.CommitPlan?
    ensures var (db', s') := StepSession(env, FULL, db, s, sid, asOf, outcome);
            DbOk(env, start, db') && SessionOk(env, start, db', s')
  {
    var plan := s.pc.plan;
    var row := NewRow(s, PlanStep(plan.content, plan.calls), None, None, plan.cost);
    CommitKeepsDb(env, start, db, s, sid, row, if plan.IsFinal() then CommitFinal(plan) else LoopTop);
    assert (db.rows + [row])[..|db.rows|] == db.rows;
  }

  lemma StepCommitFinal(env: Env, start: nat, db: Db, s: Session, sid: nat, asOf: Time, outcome: Outcome)
    requires DbOk(env, start, db) && SessionOk(env, start, db, s) && s.pc.CommitFinal?
    ensures var (db', s') := StepSession(env, FULL, db, s, sid, asOf, outcome);
            DbOk(env, start, db') && SessionOk(env, start, db', s')
  {
    var row := NewRow(s, FinalStep(s.pc.plan.output), None, None, 0);
    CommitKeepsDb(env, start, db, s, sid, row, CommitSucceeded(s.pc.plan.output));
  }

  lemma StepCommitError(env: Env, start: nat, db: Db, s: Session, sid: nat, asOf: Time, outcome: Outcome)
    requires DbOk(env, start, db) && SessionOk(env, start, db, s) && s.pc.CommitError?
    ensures var (db', s') := StepSession(env, FULL, db, s, sid, asOf, outcome);
            DbOk(env, start, db') && SessionOk(env, start, db', s')
  {
    var row := NewRow(s, ErrorStep(s.pc.class_, s.pc.detail), None, None, 0);
    CommitKeepsDb(env, start, db, s, sid, row, CommitFailed(s.pc.class_, s.pc.detail));
  }

  /** A row that is neither plan, observation nor final moves nothing in the fold. */
  lemma QuietRowKeepsPass(env: Env, db: Db, s: Session, i: nat, row: Row, db': Db, s': Session)
    requires PassOk(env, db, s, i) && Current(db, s)
    requires row.body.IntentStep? || row.body.WaitStep?
    requires db'.rows == db.rows + [row] && s'.steps == s.steps && s'.pending == s.pending
    ensures PassOk(env, db', s', i)
  {
    FoldAppend(env.job, db.rows, row);
  }

  lemma StepCommitWait(env: Env, start: nat, db: Db, s: Session, sid: nat, asOf: Time, outcome: Outcome)
    requires DbOk(env, start, db) && SessionOk(env, start, db, s) && s.pc.CommitWait?
    ensures var (db', s') := StepSession(env, FULL, db, s, sid, asOf, outcome);
            DbOk(env, start, db') && SessionOk(env, start, db', s')
  {
    var i := s.pc.i;
    var call := s.pending[i];
    var row := NewRow(s, WaitStep(call), Some(call.id), None, 0);
    if Current(db, s) {
      HeadOfPass(env, db, s, i);
    }
    CommitKeepsDb(env, start, db, s, sid, row, CommitParked);
  }

  lemma StepCommitIntent(env: Env, start: nat, db: Db, s: Session, sid: nat, asOf: Time, outcome: Outcome)
    requires DbOk(env, start, db) && SessionOk(env, start, db, s) && s.pc.CommitIntent?
    ensures var (db', s') := StepSession(env, FULL, db, s, sid, asOf, outcome);
            DbOk(env, start, db') && SessionOk(env, start, db', s')
  {
    var i := s.pc.i;
    var call := s.pending[i];
    var key := Intent(KeyOf(env.job, call));
    var row := NewRow(s, IntentStep(call), Some(call.id), Some(key), 0);
    var next := StartDispatch(env, i, env.tools[call.name] + 1);
    if Current(db, s) {
      HeadOfPass(env, db, s, i);
    }
    CommitKeepsDb(env, start, db, s, sid, row, next);
    if Accepts(FULL, db.rows, row) {
      var (db', s') := CommitStep(FULL, db, s, sid, row, next);
      QuietRowKeepsPass(env, db, s, i, row, db', s');
      assert db'.rows[|db.rows|].key == Some(key);
    }
  }

  lemma StepCommitObservation(env: Env, start: nat, db: Db, s: Session, sid: nat, asOf: Time, outcome: Outcome)
    requires DbOk(env, start, db) && SessionOk(env, start, db, s) && s.pc.CommitObservation?
    ensures var (db', s') := StepSession(env, FULL, db, s, sid, asOf, outcome);
            DbOk(env, start, db') && SessionOk(env, start, db', s')
  {
    var i := s.pc.i;
    var call := s.pending[i];
    var key := KeyOf(env.job, call);
    var row := NewRow(s, Observation(call.id, call.name, s.pc.result), Some(call.id), Some(key), s.pc.cost);
    if Current(db, s) && KeyFree(db.rows, row.key) {
      FreeIsUnobserved(db.rows, key);
      HeadOfPass(env, db, s, i);
    }
    CommitKeepsDb(env, start, db, s, sid, row, NextCall(i + 1));
    if Accepts(FULL, db.rows, row) {
      ObservedMovesPass(env, db, s, i, row);
    }
  }

  lemma ObservedMovesPass(env: Env, db: Db, s: Session, i: nat, row: Row)
    requires PassOk(env, db, s, i) && Current(db, s) && i < |s.pending|
    requires row.body.Observation? && row.key == Some(KeyOf(env.job, s.pending[i]))
    ensures LastCalls(db.rows + [row]) == LastCalls(db.rows)
    ensures PlanCount(db.rows + [row]) == PlanCount(db.rows)
    ensures PendingCalls(env.job, db.rows + [row])
         == Unobserved(env.job, s.pending[i + 1..], Observed(db.rows + [row]))
  {
    var job, calls := env.job, LastCalls(db.rows);
    var seen, later := Observed(db.rows), Observed(db.rows + [row]);
    FoldAppend(job, db.rows, row);
    UnobservedTwice(job, calls, seen, later);
    UnobservedTwice(job, s.pending[i..], seen, later);
    assert s.pending[i..][1..] == s.pending[i + 1..];
  }

  lemma StartDispatchKeepsOk(env: Env, start: nat, db: Db, s: Session, i: nat)
    requires env.agent.Some? && PassOk(env, db, s, i) && i < |s.pending|
    requires MayRun(env, s.pending[i]) && s.pending[i].name in env.tools
    requires HasKey(db.rows, Intent(KeyOf(env.job, s.pending[i])))
    ensures PcOk(env, start, db, s.(pc := StartDispatch(env, i, env.tools[s.pending[i].name] + 1)))
  {
  }

  lemma ExecuteKeepsOk(env: Env, start: nat, db: Db, s: Session, i: nat)
    requires env.agent.Some? && PassOk(env, db, s, i) && i < |s.pending| && MayRun(env, s.pending[i])
    ensures PcOk(env, start, db, s.(pc := Execute(env, s.steps, i, s.pending[i])))
  {
    var call := s.pending[i];
    var key := Intent(KeyOf(env.job, call));
    if call.name in env.tools && HasKey(s.steps, key) {
      HasKeyMonotone(s.steps, db.rows, key);
      StartDispatchKeepsOk(env, start, db, s, i);
    }
  }

  /** A pending call is never found observed in the snapshot it is pending in, so it is acted upon. */
  lemma DecideActs(env: Env, db: Db, s: Session, i: nat)
    requires i < |s.pending| && s.pending == PendingCalls(env.job, s.steps)
    ensures var pc := Decide(env, db, s, i);
            || (pc.CommitObservation? && pc.i == i) || (pc.CommitWait? && pc.i == i) || (pc.CommitIntent? && pc.i == i)
            || (pc.Dispatch? && pc.i == i && s.pending[i].name in env.tools && pc.left == env.tools[s.pending[i].name] + 1)
            || pc.CommitError?
    ensures !HasObservation(s.steps, KeyOf(env.job, s.pending[i]))
  {
    assert s.pending[i] in s.pending;
    ObservedSound(s.steps, KeyOf(env.job, s.pending[i]));
    assert !HasObservation(s.steps, KeyOf(env.job, s.pending[i]));
  }

  lemma StepNextCall(env: Env, start: nat, db: Db, s: Session)
    requires env.agent.Some? && s.pc.NextCall? && PassOk(env, db, s, s.pc.i)
    ensures PcOk(env, start, db, s.(pc := Decide(env, db, s, s.pc.i)))
  {
    var i := s.pc.i;
    if i < |s.pending| {
      var call := s.pending[i];
      DecideActs(env, db, s, i);
      if MayRun(env, call) {
        ExecuteKeepsOk(env, start, db, s, i);
      }
    }
  }

  lemma StepDispatch(env: Env, start: nat, db: Db, s: Session, sid: nat, asOf: Time, outcome: Outcome)
    requires SessionOk(env, start, db, s) && s.pc.Dispatch?
    ensures var (db', s') := StepSession(env, FULL, db, s, sid, asOf, outcome);
            db'.rows == db.rows && db'.run == db.run && SessionOk(env, start, db', s')
  {
  }

  /** Steps that touch only the run row, or nothing. */
  predicate RunRowOnly(pc: Pc) {
    pc.Claimed? || pc.Loaded? || pc.LoopTop? || pc.CheckCancel? || pc.CommitSucceeded? || pc.CommitParked?
    || pc.CommitFailed? || pc.Stopped?
  }

  lemma StepRunRow(env: Env, start: nat, db: Db, s: Session, sid: nat, asOf: Time, outcome: Outcome)
    requires DbOk(env, start, db) && SessionOk(env, start, db, s) && RunRowOnly(s.pc)
    ensures var (db', s') := StepSession(env, FULL, db, s, sid, asOf, outcome);
            db'.rows == db.rows && DbOk(env, start, db') && SessionOk(env, start, db', s')
  {
  }

  lemma StepGrows(env: Env, schema: Schema, db: Db, s: Session, sid: nat, asOf: Time, outcome: Outcome)
    ensures Grows(db, StepSession(env, schema, db, s, sid, asOf, outcome).0)
  {
  }

  lemma StepKeepsOk(env: Env, start: nat, db: Db, s: Session, sid: nat, asOf: Time, outcome: Outcome)
    requires DbOk(env, start, db) && SessionOk(env, start, db, s)
    ensures var (db', s') := StepSession(env, FULL, db, s, sid, asOf, outcome);
            DbOk(env, start, db') && SessionOk(env, start, db', s')
  {
    match s.pc
    case LoadLedger => StepLoad(env, start, db, s, sid, asOf, outcome);
    case CommitPlan(_) => StepCommitPlan(env, start, db, s, sid, asOf, outcome);
    case CommitFinal(_) => StepCommitFinal(env, start, db, s, sid, asOf, outcome);
    case CommitError(_, _) => StepCommitError(env, start, db, s, sid, asOf, outcome);
    case CommitWait(_) => StepCommitWait(env, start, db, s, sid, asOf, outcome);
    case CommitIntent(_) => StepCommitIntent(env, start, db, s, sid, asOf, outcome);
    case CommitObservation(_, _, _) => StepCommitObservation(env, start, db, s, sid, asOf, outcome);
    case NextCall(_) => StepNextCall(env, start, db, s);
    case Dispatch(_, _) => StepDispatch(env, start, db, s, sid, asOf, outcome);
    case _ => StepRunRow(env, start, db, s, sid, asOf, outcome);
  }

  lemma NextKeepsInv(env: Env, start: nat, w: World, a: Action)
    requires Inv(env, start, w)
    ensures Inv(env, start, Next(env, FULL, w, a)) && Grows(w.db, Next(env, FULL, w, a).db)
  {
    var w' := Next(env, FULL, w, a);
    if a.Step? && a.sid < |w.sessions| && a.asOf <= w.db.now {
      StepKeepsOk(env, start, w.db, w.sessions[a.sid], a.sid, a.asOf, a.outcome);
      StepGrows(env, FULL, w.db, w.sessions[a.sid], a.sid, a.asOf, a.outcome);
    }
    assert DbOk(env, start, w'.db) && Grows(w.db, w'.db);
    forall k | 0 <= k < |w'.sessions|
      ensures SessionOk(env, start, w'.db, w'.sessions[k])
    {
      if k < |w.sessions| && w'.sessions[k] == w.sessions[k] {
        OthersKeepOk(env, start, w.db, w'.db, w.sessions[k]);
      }
    }
  }

  /** Every schedule keeps the ledger justified, row by row, whoever holds the lease. */
  lemma {:induction false} LedgerAlwaysOk(env: Env, now: Time, rows: seq<Row>, schedule: seq<Action>)
    requires StartOk(env.job, rows)
    ensures Inv(env, |rows|, Run(env, FULL, Enqueued(now, rows), schedule))
  {
    if schedule != [] {
      LedgerAlwaysOk(env, now, rows, schedule[..|schedule| - 1]);
      NextKeepsInv(env, |rows|, Run(env, FULL, Enqueued(now, rows), schedule[..|schedule| - 1]),
                   schedule[|schedule| - 1]);
    }
  }

  /** A ledger only grows: what a shorter schedule recorded is a prefix of what any continuation records. */
  lemma {:induction false} AppendOnly(env: Env, start: nat, w: World, schedule: seq<Action>)
    requires Inv(env, start, w)
    ensures Inv(env, start, Run(env, FULL, w, schedule))
    ensures w.db.rows <= Run(env, FULL, w, schedule).db.rows
  {
    if schedule != [] {
      AppendOnly(env, start, w, schedule[..|schedule| - 1]);
      NextKeepsInv(env, start, Run(env, FULL, w, schedule[..|schedule| - 1]), schedule[|schedule| - 1]);
    }
  }
}
