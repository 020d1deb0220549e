/** Non-interleaving without leases: the rows of one session are one contiguous block, and attempts never go back. */
module Blocks {
  import opened Models
  import opened Protocol
  import opened LedgerInvariant

  /** A session wrote exactly the rows between the cursor it loaded and the cursor it has. */
  ghost predicate WroteItsBlock(start: nat, db: Db, s: Session, sid: nat) {
    && start <= s.base <= s.local.cursor <= |db.rows|
    && s.local.attempt <= db.run.attempt
    && (forall i :: 0 <= i < |db.writers| ==> (db.writers[i] == sid <==> s.base <= start + i < s.local.cursor))
    && (Current(db, s) && |db.rows| > start ==> db.rows[|db.rows| - 1].attempt <= s.local.attempt)
  }

  ghost predicate AttemptsOrdered(start: nat, db: Db) {
    && (forall i, j :: start <= i < j < |db.rows| ==> db.rows[i].attempt <= db.rows[j].attempt)
    && (|db.rows| > start ==> db.rows[|db.rows| - 1].attempt <= db.run.attempt)
  }

  ghost predicate BlocksOk(start: nat, w: World) {
    && |w.db.rows| == start + |w.db.writers|
    && AttemptsOrdered(start, w.db)
    && (forall i :: 0 <= i < |w.db.writers| ==> w.db.writers[i] < |w.sessions|)
    && (forall k :: 0 <= k < |w.sessions| ==> WroteItsBlock(start, w.db, w.sessions[k], k))
  }

  /** All a session's step does to rows, writers, cursors and attempts. */
  ghost predicate QuietStep(db: Db, s: Session, db': Db, s': Session) {
    && db'.rows == db.rows && db'.writers == db.writers && db'.run.attempt == db.run.attempt
    && ((s'.local.cursor == s.local.cursor && s'.base == s.base && s'.local.attempt == s.local.attempt)
        || (s.pc.Claimed? && s'.local == db.run && s'.base == db.run.cursor))
  }

  ghost predicate WriteStep(db: Db, s: Session, sid: nat, db': Db, s': Session) {
    && |db'.rows| == |db.rows| + 1 && db'.rows[..|db.rows|] == db.rows
    && db'.rows[|db.rows|].seqNo == s.local.cursor + 1 && db'.rows[|db.rows|].attempt == s.local.attempt
    && SeqFree(db.rows, s.local.cursor + 1)
    && db'.writers == db.writers + [sid] && db'.run.attempt == db.run.attempt
    && s'.local.cursor == s.local.cursor + 1 && s'.base == s.base && s'.local.attempt == s.local.attempt
  }

  predicate Inserts(pc: Pc) {
    pc.CommitPlan? || pc.CommitFinal? || pc.CommitObservation? || pc.CommitWait? || pc.CommitIntent? || pc.CommitError?
  }

  lemma InsertWritesOrStops(env: Env, schema: Schema, db: Db, s: Session, sid: nat, asOf: Time, outcome: Outcome)
    requires Inserts(s.pc)
    ensures var (db', s') := StepSession(env, schema, db, s, sid, asOf, outcome);
            QuietStep(db, s, db', s') || WriteStep(db, s, sid, db', s')
  {
  }

  lemma OtherStepIsQuiet(env: Env, schema: Schema, db: Db, s: Session, sid: nat, asOf: Time, outcome: Outcome)
    requires !Inserts(s.pc)
    ensures var (db', s') := StepSession(env, schema, db, s, sid, asOf, outcome);
            QuietStep(db, s, db', s')
  {
  }

  lemma StepIsQuietOrWrites(env: Env, schema: Schema, db: Db, s: Session, sid: nat, asOf: Time, outcome: Outcome)
    ensures var (db', s') := StepSession(env, schema, db, s, sid, asOf, outcome);
            QuietStep(db, s, db', s') || WriteStep(db, s, sid, db', s')
  {
    if Inserts(s.pc) {
      InsertWritesOrStops(env, schema, db, s, sid, asOf, outcome);
    } else {
      OtherStepIsQuiet(env, schema, db, s, sid, asOf, outcome);
    }
  }

  /** A session that has not loaded the run has written nothing. */
  ghost predicate ClaimedIsEmpty(s: Session) {
    s.pc.Claimed? ==> s.base == s.local.cursor
  }

  ghost predicate BlocksInv(env: Env, start: nat, w: World) {
    Inv(env, start, w) && BlocksOk(start, w) && forall k :: 0 <= k < |w.sessions| ==> ClaimedIsEmpty(w.sessions[k])
  }

  lemma QuietKeepsBlocks(env: Env, start: nat, w: World, sid: nat, db': Db, s': Session)
    requires BlocksInv(env, start, w) && sid < |w.sessions|
    requires QuietStep(w.db, w.sessions[sid], db', s')
    ensures BlocksOk(start, World(db', w.sessions[sid := s']))
  {
    var w' := World(db', w.sessions[sid := s']);
    forall k | 0 <= k < |w'.sessions|
      ensures WroteItsBlock(start, w'.db, w'.sessions[k], k)
    {
      assert WroteItsBlock(start, w.db, w.sessions[k], k);
    }
  }

  /** Only a current session writes. */
  lemma WriterIsCurrent(start: nat, db: Db, s: Session, sid: nat, db': Db, s': Session)
    requires GapFree(db.rows) && s.local.cursor <= |db.rows| && WriteStep(db, s, sid, db', s')
    ensures Current(db, s) && db'.rows == db.rows + [db'.rows[|db.rows|]]
  {
    SeqFreeIsEnd(db.rows, s.local.cursor);
  }

  lemma WriteKeepsOthersBlock(start: nat, db: Db, s: Session, sid: nat, db': Db, s': Session, t: Session, k: nat)
    requires |db.rows| == start + |db.writers| && Current(db, s) && WriteStep(db, s, sid, db', s')
    requires WroteItsBlock(start, db, t, k) && k != sid
    ensures WroteItsBlock(start, db', t, k)
  {
  }

  lemma WriteKeepsOwnBlock(start: nat, db: Db, s: Session, sid: nat, db': Db, s': Session)
    requires |db.rows| == start + |db.writers| && Current(db, s) && WriteStep(db, s, sid, db', s')
    requires WroteItsBlock(start, db, s, sid)
    ensures WroteItsBlock(start, db', s', sid)
  {
  }

  lemma WriteKeepsAttempts(start: nat, db: Db, s: Session, sid: nat, db': Db, s': Session)
    requires AttemptsOrdered(start, db) && start <= |db.rows| && Current(db, s) && WriteStep(db, s, sid, db', s')
    requires WroteItsBlock(start, db, s, sid) && db'.rows == db.rows + [db'.rows[|db.rows|]]
    ensures AttemptsOrdered(start, db')
  {
  }

  lemma WriteKeepsBlocks(env: Env, start: nat, w: World, sid: nat, db': Db, s': Session)
    requires BlocksInv(env, start, w) && sid < |w.sessions|
    requires WriteStep(w.db, w.sessions[sid], sid, db', s')
    ensures BlocksOk(start, World(db', w.sessions[sid := s']))
  {
    var s := w.sessions[sid];
    assert WroteItsBlock(start, w.db, s, sid);
    WriterIsCurrent(start, w.db, s, sid, db', s');
    WriteKeepsAttempts(start, w.db, s, sid, db', s');
    var w' := World(db', w.sessions[sid := s']);
    forall k | 0 <= k < |w'.sessions|
      ensures WroteItsBlock(start, w'.db, w'.sessions[k], k)
    {
      if k == sid {
        WriteKeepsOwnBlock(start, w.db, s, sid, db', s');
      } else {
        WriteKeepsOthersBlock(start, w.db, s, sid, db', s', w.sessions[k], k);
      }
    }
  }

  lemma IdleKeepsBlocks(env: Env, start: nat, w: World, w': World)
    requires BlocksInv(env, start, w) && Idle(w, w')
    ensures BlocksOk(start, w') && forall k :: 0 <= k < |w'.sessions| ==> ClaimedIsEmpty(w'.sessions[k])
  {
    forall k | 0 <= k < |w'.sessions|
      ensures WroteItsBlock(start, w'.db, w'.sessions[k], k) && ClaimedIsEmpty(w'.sessions[k])
    {
      if k < |w.sessions| {
        assert WroteItsBlock(start, w.db, w.sessions[k], k) && ClaimedIsEmpty(w.sessions[k]);
      }
    }
  }

  lemma NextKeepsBlocks(env: Env, start: nat, w: World, a: Action)
    requires BlocksInv(env, start, w)
    ensures BlocksInv(env, start, Next(env, FULL, w, a))
  {
    NextKeepsInv(env, start, w, a);
    if Moves(w, a) {
      var s := w.sessions[a.sid];
      var (db', s') := StepSession(env, FULL, w.db, s, a.sid, a.asOf, a.outcome);
      StepIsQuietOrWrites(env, FULL, w.db, s, a.sid, a.asOf, a.outcome);
      if QuietStep(w.db, s, db', s') {
        QuietKeepsBlocks(env, start, w, a.sid, db', s');
      } else {
        WriteKeepsBlocks(env, start, w, a.sid, db', s');
      }
      StepLeavesClaimed(env, FULL, w.db, s, a.sid, a.asOf, a.outcome);
    } else {
      MovesOrIdle(env, FULL, w, a);
      IdleKeepsBlocks(env, start, w, Next(env, FULL, w, a));
    }
  }

  lemma StepLeavesClaimed(env: Env, schema: Schema, db: Db, s: Session, sid: nat, asOf: Time, outcome: Outcome)
    ensures !StepSession(env, schema, db, s, sid, asOf, outcome).1.pc.Claimed?
  {
  }

  lemma {:induction false} BlocksAlwaysOk(env: Env, now: Time, rows: seq<Row>, schedule: seq<Action>)
    requires StartOk(env.job, rows)
    ensures BlocksInv(env, |rows|, Run(env, FULL, Enqueued(now, rows), schedule))
  {
    if schedule != [] {
      BlocksAlwaysOk(env, now, rows, schedule[..|schedule| - 1]);
      NextKeepsBlocks(env, |rows|, Run(env, FULL, Enqueued(now, rows), schedule[..|schedule| - 1]),
                      schedule[|schedule| - 1]);
    }
  }

  /** Non-interleaving: in every schedule, with any number of stale sessions, rows written by the same session have
      no other session's row between them; along the ledger attempts never decrease; the ledger is numbered 1 to n
      without a gap and the run's cursor is n. */
  lemma SessionsDoNotInterleave(env: Env, now: Time, rows: seq<Row>, schedule: seq<Action>)
    requires StartOk(env.job, rows)
    ensures var db := Run(env, FULL, Enqueued(now, rows), schedule).db;
            && |db.rows| == |rows| + |db.writers|
            && (forall i, j, k :: 0 <= i < j < k < |db.writers| && db.writers[i] == db.writers[k] ==>
                  db.writers[j] == db.writers[i])
            && (forall i, j :: |rows| <= i < j < |db.rows| ==> db.rows[i].attempt <= db.rows[j].attempt)
            && (forall i :: 0 <= i < |db.rows| ==> db.rows[i].seqNo == i + 1)
            && db.run.cursor == |db.rows|
  {
    BlocksAlwaysOk(env, now, rows, schedule);
    var w := Run(env, FULL, Enqueued(now, rows), schedule);
    var db := w.db;
    forall i, j, k | 0 <= i < j < k < |db.writers| && db.writers[i] == db.writers[k]
      ensures db.writers[j] == db.writers[i]
    {
      assert WroteItsBlock(|rows|, db, w.sessions[db.writers[i]], db.writers[i]);
    }
  }
}
