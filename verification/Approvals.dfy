/** Human approval. The engine dispatches a guarded call whose approval row exists and is not rejected; that row is
    approved as long as no session reads the run while an approval is still open. */
module Approvals {
  import opened Values
  import opened Models
  import opened Rebuild
  import opened Protocol
  import opened LedgerInvariant
  import opened ExactlyOnce
  import opened Blocks

  predicate AnyOpen(approvals: seq<Approval>) {
    exists i :: 0 <= i < |approvals| && approvals[i].verdict == Verdict.Pending
  }

  /** A worker that has claimed the run does not read it while an approval is open. */
  predicate CleanRead(w: World, a: Action) {
    Moves(w, a) && w.sessions[a.sid].pc.Claimed? ==> !AnyOpen(w.db.approvals)
  }

  predicate CleanReads(env: Env, w: World, schedule: seq<Action>) {
    schedule == [] ||
    (CleanReads(env, w, schedule[..|schedule| - 1])
     && CleanRead(Run(env, FULL, w, schedule[..|schedule| - 1]), schedule[|schedule| - 1]))
  }

  predicate Guarded(env: Env, call: ToolCall) {
    env.policy(call) == RequireApproval
  }

  predicate IsApproved(db: Db, call: ToolCall) {
    FindApproval(db.approvals, call.id) == Some(Approved)
  }

  predicate LogApproved(env: Env, db: Db) {
    forall n :: 0 <= n < |db.log| && Guarded(env, db.log[n].call) ==> IsApproved(db, db.log[n].call)
  }

  /** While a session still holds the end of the ledger, it finds no approval open and is at no guarded call that was not
      approved. */
  predicate SessionApproved(env: Env, db: Db, s: Session) {
    Current(db, s) ==>
      && (s.pc.CommitIntent? && s.pc.i < |s.pending| && Guarded(env, s.pending[s.pc.i]) ==>
            IsApproved(db, s.pending[s.pc.i]))
      && (s.pc.Dispatch? && s.pc.i < |s.pending| && Guarded(env, s.pending[s.pc.i]) ==>
            IsApproved(db, s.pending[s.pc.i]))
      && (!s.pc.Claimed? && !s.pc.CommitParked? && !s.pc.Stopped? ==> !AnyOpen(db.approvals))
  }

  ghost predicate ApprovalInv(env: Env, start: nat, w: World) {
    Inv(env, start, w) && forall k :: 0 <= k < |w.sessions| ==> SessionApproved(env, w.db, w.sessions[k])
  }

  // ---------------------------------------------------------------------------
  // Decided approvals stay decided
  // ---------------------------------------------------------------------------

  ghost predicate Keeps(approvals: seq<Approval>, later: seq<Approval>) {
    forall id: string, v :: v != Verdict.Pending && FindApproval(approvals, id) == Some(v) ==>
      FindApproval(later, id) == Some(v)
  }

  lemma {:induction false} AppendKeepsFound(approvals: seq<Approval>, a: Approval, id: string)
    requires HasApproval(approvals, id)
    ensures FindApproval(approvals + [a], id) == FindApproval(approvals, id)
  {
    assert (approvals + [a])[1..] == approvals[1..] + [a];
    if approvals[0].call.id != id {
      var i :| 0 <= i < |approvals| && approvals[i].call.id == id;
      assert approvals[1..][i - 1].call.id == id;
      AppendKeepsFound(approvals[1..], a, id);
    }
  }

  lemma {:induction false} DecideKeepsFound(approvals: seq<Approval>, i: nat, v: Verdict, id: string)
    requires i < |approvals| && approvals[i].verdict == Verdict.Pending
    requires FindApproval(approvals, id).Some? && FindApproval(approvals, id).value != Verdict.Pending
    ensures FindApproval(approvals[i := approvals[i].(verdict := v)], id) == FindApproval(approvals, id)
  {
    var later := approvals[i := approvals[i].(verdict := v)];
    if i > 0 {
      assert later[1..] == approvals[1..][i - 1 := approvals[1..][i - 1].(verdict := v)];
      if approvals[0].call.id != id {
        DecideKeepsFound(approvals[1..], i - 1, v, id);
      }
    } else {
      assert later[1..] == approvals[1..];
    }
  }

  lemma AppendKeeps(approvals: seq<Approval>, a: Approval)
    ensures Keeps(approvals, approvals + [a])
  {
    forall id: string, v | v != Verdict.Pending && FindApproval(approvals, id) == Some(v)
      ensures FindApproval(approvals + [a], id) == Some(v)
    {
      AppendKeepsFound(approvals, a, id);
    }
  }

  lemma DecideKeeps(approvals: seq<Approval>, i: nat, v: Verdict)
    requires i < |approvals| && approvals[i].verdict == Verdict.Pending
    ensures Keeps(approvals, approvals[i := approvals[i].(verdict := v)])
  {
    forall id: string, u | u != Verdict.Pending && FindApproval(approvals, id) == Some(u)
      ensures FindApproval(approvals[i := approvals[i].(verdict := v)], id) == Some(u)
    {
      DecideKeepsFound(approvals, i, v, id);
    }
  }

  /** All a session's step does to the approvals. */
  lemma StepApprovals(env: Env, schema: Schema, db: Db, s: Session, sid: nat, asOf: Time, outcome: Outcome)
    ensures var (db', s') := StepSession(env, schema, db, s, sid, asOf, outcome);
            || db'.approvals == db.approvals
            || (s.pc.CommitWait? && s'.pc == CommitParked && |db'.rows| == |db.rows| + 1
                && exists a :: db'.approvals == db.approvals + [a])
  {
  }

  lemma IdleApprovals(env: Env, schema: Schema, w: World, a: Action)
    requires !Moves(w, a)
    ensures var w' := Next(env, schema, w, a);
            && Keeps(w.db.approvals, w'.db.approvals)
            && (!AnyOpen(w.db.approvals) ==> w'.db.approvals == w.db.approvals)
  {
    if a.Resolve? && w.db.run.status == ApprovalWait && LastPending(w.db.approvals).Some? {
      DecideKeeps(w.db.approvals, LastPending(w.db.approvals).value, if a.approve then Approved else Rejected);
    }
  }

  // ---------------------------------------------------------------------------
  // Preservation
  // ---------------------------------------------------------------------------

  /** With no approval open, what is found is decided. */
  lemma FoundIsDecided(approvals: seq<Approval>, id: string)
    requires !AnyOpen(approvals)
    ensures FindApproval(approvals, id) != Some(Verdict.Pending)
  {
  }

  lemma DecideIsApproved(env: Env, start: nat, db: Db, s: Session)
    requires s.pc.NextCall? && SessionApproved(env, db, s)
    ensures SessionApproved(env, db, s.(pc := Decide(env, db, s, s.pc.i)))
  {
    if Current(db, s) && s.pc.i < |s.pending| {
      FoundIsDecided(db.approvals, s.pending[s.pc.i].id);
    }
  }

  lemma StepKeepsSessionApproved(env: Env, start: nat, db: Db, s: Session, sid: nat, asOf: Time, outcome: Outcome)
    requires DbOk(env, start, db) && SessionOk(env, start, db, s) && SessionApproved(env, db, s)
    requires s.pc.Claimed? ==> !AnyOpen(db.approvals)
    ensures var (db', s') := StepSession(env, FULL, db, s, sid, asOf, outcome);
            db'.approvals == db.approvals ==> SessionApproved(env, db', s')
  {
    if s.pc.NextCall? {
      DecideIsApproved(env, start, db, s);
    } else if s.pc.CommitIntent? {
      var call := s.pending[s.pc.i];
      AcceptedIsCurrent(env, start, db, s,
                        NewRow(s, IntentStep(call), Some(call.id), Some(Intent(KeyOf(env.job, call))), 0));
    } else {
      OtherStepApproved(env, start, db, s, sid, asOf, outcome);
    }
  }

  lemma OtherStepMoves(env: Env, db: Db, s: Session, sid: nat, asOf: Time, outcome: Outcome)
    requires !s.pc.NextCall? && !s.pc.CommitIntent?
    ensures var (db', s') := StepSession(env, FULL, db, s, sid, asOf, outcome);
            && !s'.pc.CommitIntent?
            && (s'.pc.Dispatch? ==> s.pc.Dispatch? && s'.pc.i == s.pc.i && s'.pending == s.pending)
            && (s.pc.CommitParked? || s.pc.Stopped? ==> s'.pc.Stopped?)
            && (s.pc.CommitWait? && db'.approvals == db.approvals ==> s'.pc.Stopped?)
  {
  }

  lemma CurrentWasCurrent(env: Env, start: nat, db: Db, s: Session, sid: nat, asOf: Time, outcome: Outcome)
    requires DbOk(env, start, db) && SessionOk(env, start, db, s)
    ensures var (db', s') := StepSession(env, FULL, db, s, sid, asOf, outcome);
            Current(db', s') ==> Current(db, s) || s.pc.Claimed?
  {
    StepIsQuietOrWrites(env, FULL, db, s, sid, asOf, outcome);
    SeqFreeIsEnd(db.rows, s.local.cursor);
  }

  lemma OtherStepApproved(env: Env, start: nat, db: Db, s: Session, sid: nat, asOf: Time, outcome: Outcome)
    requires DbOk(env, start, db) && SessionOk(env, start, db, s) && SessionApproved(env, db, s)
    requires s.pc.Claimed? ==> !AnyOpen(db.approvals)
    requires !s.pc.NextCall? && !s.pc.CommitIntent?
    ensures var (db', s') := StepSession(env, FULL, db, s, sid, asOf, outcome);
            db'.approvals == db.approvals ==> SessionApproved(env, db', s')
  {
    OtherStepMoves(env, db, s, sid, asOf, outcome);
    CurrentWasCurrent(env, start, db, s, sid, asOf, outcome);
  }

  /** Where intents and dispatches come from. */
  lemma RowAndSendOf(env: Env, db: Db, s: Session, sid: nat, asOf: Time, outcome: Outcome)
    ensures var db' := StepSession(env, FULL, db, s, sid, asOf, outcome).0;
            && (db'.rows == db.rows || db'.rows == db.rows + [db'.rows[|db'.rows| - 1]])
            && (db'.log == db.log || db'.log == db.log + [db'.log[|db'.log| - 1]])
            && (db'.rows != db.rows && db'.rows[|db'.rows| - 1].body.IntentStep? ==>
                  && s.pc.CommitIntent? && s.pc.i < |s.pending| && db'.rows[|db'.rows| - 1].body.call == s.pending[s.pc.i])
            && (db'.log != db.log ==>
                  && s.pc.Dispatch? && s.pc.i < |s.pending| && db'.log[|db'.log| - 1].call == s.pending[s.pc.i])
  {
  }

  lemma MovedKeepsApproved(env: Env, start: nat, w: World, sid: nat, db': Db, s': Session)
    requires ApprovalInv(env, start, w) && sid < |w.sessions| && Grows(w.db, db')
    requires db'.approvals == w.db.approvals || db'.rows != w.db.rows
    requires SessionApproved(env, db', s') && Inv(env, start, World(db', w.sessions[sid := s']))
    ensures ApprovalInv(env, start, World(db', w.sessions[sid := s']))
  {
    var sessions := w.sessions[sid := s'];
    forall k | 0 <= k < |sessions|
      ensures SessionApproved(env, db', sessions[k])
    {
      if k != sid {
        assert SessionApproved(env, w.db, w.sessions[k]) && SessionOk(env, start, w.db, w.sessions[k]);
      }
    }
  }

  lemma IdleKeepsApproved(env: Env, start: nat, w: World, w': World)
    requires ApprovalInv(env, start, w) && Idle(w, w') && Inv(env, start, w')
    requires Keeps(w.db.approvals, w'.db.approvals)
    requires !AnyOpen(w.db.approvals) ==> w'.db.approvals == w.db.approvals
    ensures ApprovalInv(env, start, w')
  {
    forall k | 0 <= k < |w'.sessions|
      ensures SessionApproved(env, w'.db, w'.sessions[k])
    {
      if k < |w.sessions| {
        assert SessionApproved(env, w.db, w.sessions[k]);
      }
    }
  }

  lemma NextKeepsApproved(env: Env, start: nat, w: World, a: Action)
    requires ApprovalInv(env, start, w) && CleanRead(w, a)
    ensures ApprovalInv(env, start, Next(env, FULL, w, a))
  {
    NextKeepsInv(env, start, w, a);
    if Moves(w, a) {
      var s := w.sessions[a.sid];
      var (db', s') := StepSession(env, FULL, w.db, s, a.sid, a.asOf, a.outcome);
      assert SessionOk(env, start, w.db, s) && SessionApproved(env, w.db, s);
      StepApprovals(env, FULL, w.db, s, a.sid, a.asOf, a.outcome);
      if db'.approvals == w.db.approvals {
        StepKeepsSessionApproved(env, start, w.db, s, a.sid, a.asOf, a.outcome);
      }
      MovedKeepsApproved(env, start, w, a.sid, db', s');
    } else {
      MovesOrIdle(env, FULL, w, a);
      IdleApprovals(env, FULL, w, a);
      IdleKeepsApproved(env, start, w, Next(env, FULL, w, a));
    }
  }

  /** With clean reads, whatever ledger the run was enqueued with. */
  lemma {:induction false} AlwaysApproved(env: Env, now: Time, rows: seq<Row>, schedule: seq<Action>)
    requires StartOk(env.job, rows) && CleanReads(env, Enqueued(now, rows), schedule)
    ensures ApprovalInv(env, |rows|, Run(env, FULL, Enqueued(now, rows), schedule))
  {
    if schedule != [] {
      AlwaysApproved(env, now, rows, schedule[..|schedule| - 1]);
      NextKeepsApproved(env, |rows|, Run(env, FULL, Enqueued(now, rows), schedule[..|schedule| - 1]),
                        schedule[|schedule| - 1]);
    }
  }

  // ---------------------------------------------------------------------------
  // Intents a run was enqueued with
  // ---------------------------------------------------------------------------

  /** No guarded call that is still pending has an intent: the ledger was not copied in the middle of a guarded call. */
  predicate NoIntentPending(env: Env, rows: seq<Row>) {
    forall c :: c in PendingCalls(env.job, rows) && Guarded(env, c) ==> !HasKey(rows, Intent(KeyOf(env.job, c)))
  }

  /** The call of every intent is observed, or is of the last plan, and of that only after the plan. */
  predicate IntentFollowed(job: Job, rows: seq<Row>, call: ToolCall) {
    || KeyOf(job, call) in Observed(rows)
    || (call in LastCalls(rows) && !rows[|rows| - 1].body.PlanStep?)
  }

  lemma FollowedAppend(job: Job, rows: seq<Row>, row: Row, call: ToolCall)
    requires Shaped(job, rows, row) && IntentFollowed(job, rows, call)
    ensures IntentFollowed(job, rows + [row], call)
  {
    FoldAppend(job, rows, row);
    assert call in LastCalls(rows) && KeyOf(job, call) !in Observed(rows) ==> call in PendingCalls(job, rows);
  }

  lemma {:induction false} IntentsFollowed(job: Job, rows: seq<Row>, n: nat, i: nat)
    requires StartOk(job, rows) && i < n <= |rows| && rows[i].body.IntentStep?
    ensures IntentFollowed(job, rows[..n], rows[i].body.call)
  {
    assert rows[..n] == rows[..n - 1] + [rows[n - 1]];
    assert Shaped(job, rows[..n - 1], rows[n - 1]);
    if i == n - 1 {
      FoldAppend(job, rows[..i], rows[i]);
    } else {
      IntentsFollowed(job, rows, n - 1, i);
      FollowedAppend(job, rows[..n - 1], rows[n - 1], rows[i].body.call);
    }
  }

  /** Every guarded intent is of an approved call, or of one that was observed before the run was enqueued. */
  predicate IntentCovered(env: Env, start: nat, db: Db, i: nat)
    requires start <= |db.rows| && i < |db.rows|
  {
    db.rows[i].body.IntentStep? && Guarded(env, db.rows[i].body.call) ==>
      IsApproved(db, db.rows[i].body.call) || KeyOf(env.job, db.rows[i].body.call) in Observed(db.rows[..start])
  }

  /** A dispatch needs no insert, so this must hold of sessions that were overtaken as well. */
  predicate DispatchApproved(env: Env, start: nat, db: Db, s: Session) {
    && (PassIndex(s.pc).Some? ==> start <= |s.steps|)
    && (s.pc.Dispatch? && s.pc.i < |s.pending| && Guarded(env, s.pending[s.pc.i]) ==> IsApproved(db, s.pending[s.pc.i]))
  }

  ghost predicate ConsentInv(env: Env, start: nat, w: World) {
    && ApprovalInv(env, start, w) && LogApproved(env, w.db)
    && (forall i :: 0 <= i < |w.db.rows| ==> IntentCovered(env, start, w.db, i))
    && forall k :: 0 <= k < |w.sessions| ==> DispatchApproved(env, start, w.db, w.sessions[k])
  }

  lemma StartIsCovered(env: Env, now: Time, rows: seq<Row>)
    requires StartOk(env.job, rows) && NoIntentPending(env, rows)
    ensures ConsentInv(env, |rows|, Enqueued(now, rows))
  {
    LedgerAlwaysOk(env, now, rows, []);
    var db := Enqueued(now, rows).db;
    assert rows[..|rows|] == rows;
    forall i | 0 <= i < |rows|
      ensures IntentCovered(env, |rows|, db, i)
    {
      if rows[i].body.IntentStep? && KeyOf(env.job, rows[i].body.call) !in Observed(rows) {
        IntentsFollowed(env.job, rows, |rows|, i);
        assert Shaped(env.job, rows[..i], rows[i]);
        assert rows[i].body.call in PendingCalls(env.job, rows);
      }
    }
  }

  /** An intent key on the ledger of a call that is pending in a snapshot: it was approved. */
  lemma IntentIsApproved(env: Env, start: nat, db: Db, s: Session, i: nat)
    requires DbOk(env, start, db) && PassOk(env, db, s, i) && i < |s.pending| && start <= |s.steps|
    requires forall j :: 0 <= j < |db.rows| ==> IntentCovered(env, start, db, j)
    requires Guarded(env, s.pending[i]) && HasKey(s.steps, Intent(KeyOf(env.job, s.pending[i])))
    ensures IsApproved(db, s.pending[i])
  {
    var call := s.pending[i];
    var j :| 0 <= j < |s.steps| && s.steps[j].key == Some(Intent(KeyOf(env.job, call)));
    assert Shaped(env.job, db.rows[..j], db.rows[j]);
    assert IntentCovered(env, start, db, j);
    assert call in s.pending;
    if KeyOf(env.job, call) in Observed(db.rows[..start]) {
      ObservedMonotone(db.rows[..start], s.steps);
    }
  }

  lemma DecideIsDispatchApproved(env: Env, start: nat, db: Db, s: Session)
    requires DbOk(env, start, db) && SessionOk(env, start, db, s) && s.pc.NextCall? && DispatchApproved(env, start, db, s)
    requires forall j :: 0 <= j < |db.rows| ==> IntentCovered(env, start, db, j)
    ensures DispatchApproved(env, start, db, s.(pc := Decide(env, db, s, s.pc.i)))
  {
    var i := s.pc.i;
    if i < |s.pending| && Guarded(env, s.pending[i]) && HasKey(s.steps, Intent(KeyOf(env.job, s.pending[i]))) {
      IntentIsApproved(env, start, db, s, i);
    }
  }

  lemma LoadIsDispatchApproved(env: Env, start: nat, db: Db, s: Session, sid: nat, asOf: Time, outcome: Outcome)
    requires GapFree(db.rows) && start <= |db.rows| && s.pc.LoadLedger?
    ensures DispatchApproved(env, start, db, StepSession(env, FULL, db, s, sid, asOf, outcome).1)
  {
    OrderBySeqIsIdentity(db.rows);
  }

  lemma IntentIsDispatchApproved(env: Env, start: nat, db: Db, s: Session, sid: nat, asOf: Time, outcome: Outcome)
    requires DbOk(env, start, db) && SessionOk(env, start, db, s) && SessionApproved(env, db, s)
    requires DispatchApproved(env, start, db, s) && s.pc.CommitIntent?
    ensures var (db', s') := StepSession(env, FULL, db, s, sid, asOf, outcome);
            db'.approvals == db.approvals && DispatchApproved(env, start, db', s')
  {
    var call := s.pending[s.pc.i];
    AcceptedIsCurrent(env, start, db, s,
                      NewRow(s, IntentStep(call), Some(call.id), Some(Intent(KeyOf(env.job, call))), 0));
  }

  lemma StepIsDispatchApproved(env: Env, start: nat, db: Db, s: Session, sid: nat, asOf: Time, outcome: Outcome)
    requires DbOk(env, start, db) && SessionOk(env, start, db, s) && SessionApproved(env, db, s)
    requires DispatchApproved(env, start, db, s)
    requires forall j :: 0 <= j < |db.rows| ==> IntentCovered(env, start, db, j)
    ensures var (db', s') := StepSession(env, FULL, db, s, sid, asOf, outcome);
            db'.approvals == db.approvals ==> DispatchApproved(env, start, db', s')
  {
    if s.pc.NextCall? {
      DecideIsDispatchApproved(env, start, db, s);
    } else if s.pc.LoadLedger? {
      LoadIsDispatchApproved(env, start, db, s, sid, asOf, outcome);
    } else if s.pc.CommitIntent? {
      IntentIsDispatchApproved(env, start, db, s, sid, asOf, outcome);
    } else {
      OtherStepMoves(env, db, s, sid, asOf, outcome);
      StaysInPass(env, db, s, sid, asOf, outcome);
    }
  }

  lemma StaysInPass(env: Env, db: Db, s: Session, sid: nat, asOf: Time, outcome: Outcome)
    requires !s.pc.LoadLedger?
    ensures var s' := StepSession(env, FULL, db, s, sid, asOf, outcome).1;
            s'.steps == s.steps && (PassIndex(s'.pc).Some? ==> PassIndex(s.pc).Some?)
  {
  }

  /** Intents and dispatches after a step are approved. */
  lemma StepKeepsRowsApproved(env: Env, start: nat, db: Db, s: Session, sid: nat, asOf: Time, outcome: Outcome)
    requires DbOk(env, start, db) && SessionOk(env, start, db, s) && SessionApproved(env, db, s)
    requires DispatchApproved(env, start, db, s) && LogApproved(env, db)
    requires forall i :: 0 <= i < |db.rows| ==> IntentCovered(env, start, db, i)
    ensures var db' := StepSession(env, FULL, db, s, sid, asOf, outcome).0;
            && start <= |db'.rows|
            && (db'.approvals == db.approvals ==>
                  LogApproved(env, db') && forall i :: 0 <= i < |db'.rows| ==> IntentCovered(env, start, db', i))
  {
    var db' := StepSession(env, FULL, db, s, sid, asOf, outcome).0;
    RowAndSendOf(env, db, s, sid, asOf, outcome);
    if s.pc.CommitIntent? {
      var call := s.pending[s.pc.i];
      AcceptedIsCurrent(env, start, db, s,
                        NewRow(s, IntentStep(call), Some(call.id), Some(Intent(KeyOf(env.job, call))), 0));
    }
    assert db'.rows[..start] == db.rows[..start];
    forall i | 0 <= i < |db'.rows| && db'.approvals == db.approvals
      ensures IntentCovered(env, start, db', i)
    {
      if i < |db.rows| {
        assert db'.rows[i] == db.rows[i] && IntentCovered(env, start, db, i);
      }
    }
  }

  lemma WaitRowIsNoIntent(env: Env, db: Db, s: Session, sid: nat, asOf: Time, outcome: Outcome)
    requires s.pc.CommitWait?
    ensures var (db', s') := StepSession(env, FULL, db, s, sid, asOf, outcome);
            s'.pc == CommitParked ==>
              && |db'.rows| == |db.rows| + 1 && db.rows <= db'.rows && !db'.rows[|db.rows|].body.IntentStep?
              && db'.log == db.log
  {
  }

  lemma CoverageStays(env: Env, start: nat, w: World, w': World)
    requires ConsentInv(env, start, w) && w.db.rows <= w'.db.rows && w'.db.log == w.db.log
    requires Keeps(w.db.approvals, w'.db.approvals)
    requires forall i :: |w.db.rows| <= i < |w'.db.rows| ==> !w'.db.rows[i].body.IntentStep?
    ensures start <= |w'.db.rows| && LogApproved(env, w'.db)
    ensures forall i :: 0 <= i < |w'.db.rows| ==> IntentCovered(env, start, w'.db, i)
  {
    assert w'.db.rows[..start] == w.db.rows[..start];
    forall i | 0 <= i < |w'.db.rows|
      ensures IntentCovered(env, start, w'.db, i)
    {
      if i < |w.db.rows| {
        assert IntentCovered(env, start, w.db, i);
      }
    }
  }

  lemma AskingKeepsCoverage(env: Env, start: nat, w: World, sid: nat, asOf: Time, outcome: Outcome, w': World)
    requires ConsentInv(env, start, w) && sid < |w.sessions|
    requires w'.db == StepSession(env, FULL, w.db, w.sessions[sid], sid, asOf, outcome).0
    requires w'.db.approvals != w.db.approvals
    ensures w.sessions[sid].pc.CommitWait?
    ensures StepSession(env, FULL, w.db, w.sessions[sid], sid, asOf, outcome).1.pc == CommitParked
    ensures start <= |w'.db.rows| && LogApproved(env, w'.db) && Keeps(w.db.approvals, w'.db.approvals)
    ensures forall i :: 0 <= i < |w'.db.rows| ==> IntentCovered(env, start, w'.db, i)
  {
    StepApprovals(env, FULL, w.db, w.sessions[sid], sid, asOf, outcome);
    var new_ :| w'.db.approvals == w.db.approvals + [new_];
    AppendKeeps(w.db.approvals, new_);
    WaitRowIsNoIntent(env, w.db, w.sessions[sid], sid, asOf, outcome);
    CoverageStays(env, start, w, w');
  }

  lemma SessionsStayCovered(env: Env, start: nat, w: World, w': World)
    requires ConsentInv(env, start, w) && Keeps(w.db.approvals, w'.db.approvals) && |w.sessions| <= |w'.sessions|
    requires forall k :: 0 <= k < |w.sessions| ==>
               || w'.sessions[k] == w.sessions[k] || w'.sessions[k].pc == Stopped || w'.sessions[k].pc == CommitParked
               || DispatchApproved(env, start, w'.db, w'.sessions[k])
    requires forall k :: |w.sessions| <= k < |w'.sessions| ==> w'.sessions[k].pc == Claimed
    ensures forall k :: 0 <= k < |w'.sessions| ==> DispatchApproved(env, start, w'.db, w'.sessions[k])
  {
    forall k | 0 <= k < |w'.sessions|
      ensures DispatchApproved(env, start, w'.db, w'.sessions[k])
    {
      if k < |w.sessions| {
        assert DispatchApproved(env, start, w.db, w.sessions[k]);
      }
    }
  }

  lemma NextKeepsConsent(env: Env, start: nat, w: World, a: Action)
    requires ConsentInv(env, start, w) && CleanRead(w, a)
    ensures ConsentInv(env, start, Next(env, FULL, w, a))
  {
    NextKeepsApproved(env, start, w, a);
    NextKeepsInv(env, start, w, a);
    var w' := Next(env, FULL, w, a);
    if Moves(w, a) {
      var s := w.sessions[a.sid];
      var (db', s') := StepSession(env, FULL, w.db, s, a.sid, a.asOf, a.outcome);
      assert SessionOk(env, start, w.db, s) && SessionApproved(env, w.db, s) && DispatchApproved(env, start, w.db, s);
      StepApprovals(env, FULL, w.db, s, a.sid, a.asOf, a.outcome);
      if db'.approvals == w.db.approvals {
        StepKeepsRowsApproved(env, start, w.db, s, a.sid, a.asOf, a.outcome);
        StepIsDispatchApproved(env, start, w.db, s, a.sid, a.asOf, a.outcome);
      } else {
        AskingKeepsCoverage(env, start, w, a.sid, a.asOf, a.outcome, w');
      }
      SessionsStayCovered(env, start, w, w');
    } else {
      MovesOrIdle(env, FULL, w, a);
      IdleApprovals(env, FULL, w, a);
      CoverageStays(env, start, w, w');
      SessionsStayCovered(env, start, w, w');
    }
  }

  lemma {:induction false} AlwaysConsented(env: Env, now: Time, rows: seq<Row>, schedule: seq<Action>)
    requires StartOk(env.job, rows) && NoIntentPending(env, rows)
    requires CleanReads(env, Enqueued(now, rows), schedule)
    ensures ConsentInv(env, |rows|, Run(env, FULL, Enqueued(now, rows), schedule))
  {
    if schedule == [] {
      StartIsCovered(env, now, rows);
    } else {
      AlwaysConsented(env, now, rows, schedule[..|schedule| - 1]);
      NextKeepsConsent(env, |rows|, Run(env, FULL, Enqueued(now, rows), schedule[..|schedule| - 1]),
                       schedule[|schedule| - 1]);
    }
  }

  // ---------------------------------------------------------------------------
  // What a human decided
  // ---------------------------------------------------------------------------

  /** No guarded call is dispatched before its id is approved, and so never under a rejection, whatever else the sessions
      do and whether or not their leases hold. */
  lemma DispatchedOnlyIfApproved(env: Env, now: Time, rows: seq<Row>, schedule: seq<Action>, n: nat)
    requires StartOk(env.job, rows) && NoIntentPending(env, rows)
    requires CleanReads(env, Enqueued(now, rows), schedule)
    requires n < |Run(env, FULL, Enqueued(now, rows), schedule).db.log|
    requires Guarded(env, Run(env, FULL, Enqueued(now, rows), schedule).db.log[n].call)
    ensures var db := Run(env, FULL, Enqueued(now, rows), schedule).db;
            FindApproval(db.approvals, db.log[n].call.id) == Some(Approved)
  {
    AlwaysConsented(env, now, rows, schedule);
  }

  /** A policy that guards nothing needs no such care: no approval is ever recorded, and every read is clean. */
  lemma {:induction false} UnguardedReadsAreClean(env: Env, now: Time, rows: seq<Row>, schedule: seq<Action>)
    requires StartOk(env.job, rows) && forall call :: !Guarded(env, call)
    ensures Run(env, FULL, Enqueued(now, rows), schedule).db.approvals == []
    ensures CleanReads(env, Enqueued(now, rows), schedule) && NoIntentPending(env, rows)
  {
    if schedule != [] {
      var before, a := schedule[..|schedule| - 1], schedule[|schedule| - 1];
      UnguardedReadsAreClean(env, now, rows, before);
      LedgerAlwaysOk(env, now, rows, before);
      UnguardedAsksNobody(env, |rows|, Run(env, FULL, Enqueued(now, rows), before), a);
    }
  }

  lemma UnguardedAsksNobody(env: Env, start: nat, w: World, a: Action)
    requires Inv(env, start, w) && (forall call :: !Guarded(env, call)) && w.db.approvals == []
    ensures Next(env, FULL, w, a).db.approvals == []
  {
    if Moves(w, a) {
      var s := w.sessions[a.sid];
      assert SessionOk(env, start, w.db, s);
      assert s.pc.CommitWait? ==> Guarded(env, s.pending[s.pc.i]);
      StepApprovals(env, FULL, w.db, s, a.sid, a.asOf, a.outcome);
    } else {
      IdleApprovals(env, FULL, w, a);
    }
  }
}
