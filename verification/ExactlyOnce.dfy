/** Exactly-once records come from UNIQUE(run_id, seq) alone. UNIQUE(run_id, idempotency_key) rejects an insert only
    when one plan asks for the same call twice; if no plan does, dropping it changes no execution. */
module ExactlyOnce {
  import opened Values
  import opened Models
  import opened Rebuild
  import opened Protocol
  import opened LedgerInvariant

  function PassIndex(pc: Pc): Option<nat> {
    match pc
    case NextCall(i) => Some(i)
    case CommitObservation(i, _, _) => Some(i)
    case CommitWait(i) => Some(i)
    case CommitIntent(i) => Some(i)
    case Dispatch(i, _) => Some(i)
    case _ => None
  }

  predicate PastIntent(pc: Pc) {
    pc.Dispatch? || pc.CommitObservation?
  }

  /** Calls before the index are observed; a later call is observed, or has an intent the snapshot did not show, only
      if it repeats an earlier one. */
  ghost predicate Fresh(env: Env, db: Db, s: Session) {
    var pending := s.pending;
    PassIndex(s.pc).Some? ==>
      var i := PassIndex(s.pc).value;
      && i <= |pending|
      && (forall j :: 0 <= j < i ==> KeyOf(env.job, pending[j]) in Observed(db.rows))
      && (Current(db, s) ==> forall j :: i <= j < |pending| ==>
            && (KeyOf(env.job, pending[j]) in Observed(db.rows) ==> pending[j] in pending[..i])
            && (HasKey(db.rows, Intent(KeyOf(env.job, pending[j]))) ==>
                  || HasKey(s.steps, Intent(KeyOf(env.job, pending[j])))
                  || pending[j] in pending[..i]
                  || (PastIntent(s.pc) && pending[j] == pending[i])))
      && (s.pc.CommitIntent? && i < |pending| ==> !HasKey(s.steps, Intent(KeyOf(env.job, pending[i]))))
  }

  ghost predicate FreshInv(env: Env, start: nat, w: World) {
    Inv(env, start, w) && forall k :: 0 <= k < |w.sessions| ==> Fresh(env, w.db, w.sessions[k])
  }

  // ---------------------------------------------------------------------------
  // Keys on a justified ledger
  // ---------------------------------------------------------------------------

  /** On a justified ledger a call's key is on a row exactly when the call is observed. */
  lemma CallKeyIsObservation(env: Env, start: nat, rows: seq<Row>, call: ToolCall)
    requires LedgerOk(env, start, rows)
    ensures KeyFree(rows, Some(KeyOf(env.job, call))) <==> KeyOf(env.job, call) !in Observed(rows)
  {
    var key := KeyOf(env.job, call);
    ObservedSound(rows, key);
    if !KeyFree(rows, Some(key)) {
      var i :| 0 <= i < |rows| && rows[i].key == Some(key);
      assert Shaped(env.job, rows[..i], rows[i]);
    }
  }

  lemma HasKeyAppend(rows: seq<Row>, row: Row, key: Key)
    ensures HasKey(rows + [row], key) <==> HasKey(rows, key) || row.key == Some(key)
  {
    var more := rows + [row];
    if HasKey(rows, key) {
      HasKeyMonotone(rows, more, key);
    }
    if row.key == Some(key) {
      assert more[|rows|].key == Some(key);
    }
    if HasKey(more, key) && row.key != Some(key) {
      var i :| 0 <= i < |more| && more[i].key == Some(key);
      assert rows[i].key == Some(key);
    }
  }

  // ---------------------------------------------------------------------------
  // Preservation
  // ---------------------------------------------------------------------------

  lemma OthersKeepFresh(env: Env, start: nat, db: Db, db': Db, s: Session)
    requires SessionOk(env, start, db, s) && Fresh(env, db, s) && Grows(db, db')
    ensures Fresh(env, db', s)
  {
    if PassIndex(s.pc).Some? {
      forall j | 0 <= j < PassIndex(s.pc).value
        ensures KeyOf(env.job, s.pending[j]) in Observed(db'.rows)
      {
        ObservedMonotone(db.rows, db'.rows);
      }
    }
  }

  lemma FirstCallIsFresh(env: Env, db: Db, s: Session)
    requires s.steps == db.rows && s.pending == PendingCalls(env.job, db.rows)
    ensures Fresh(env, db, s.(pc := NextCall(0)))
  {
    assert forall j :: 0 <= j < |s.pending| ==> s.pending[j] in s.pending;
  }

  lemma LoadIsFresh(env: Env, start: nat, db: Db, s: Session, sid: nat, asOf: Time, outcome: Outcome)
    requires DbOk(env, start, db) && SessionOk(env, start, db, s) && s.pc.LoadLedger?
    ensures Fresh(env, db, StepSession(env, FULL, db, s, sid, asOf, outcome).1)
  {
    OrderBySeqIsIdentity(db.rows);
    FirstCallIsFresh(env, db, s.(steps := db.rows, pending := PendingCalls(env.job, db.rows)));
  }

  /** A decision stays at its call, and asks for an intent only if the snapshot has none. */
  lemma DecideStays(env: Env, db: Db, s: Session, i: nat)
    requires i < |s.pending| && s.pending == PendingCalls(env.job, s.steps)
    ensures var pc := Decide(env, db, s, i);
            && (PassIndex(pc) == Some(i) || PassIndex(pc).None?)
            && (pc.CommitIntent? ==> !HasKey(s.steps, Intent(KeyOf(env.job, s.pending[i]))))
  {
    DecideActs(env, db, s, i);
  }

  lemma StayingIsFresh(env: Env, db: Db, s: Session, i: nat, pc: Pc)
    requires Fresh(env, db, s) && s.pc == NextCall(i) && (PassIndex(pc) == Some(i) || PassIndex(pc).None?)
    requires pc.CommitIntent? && i < |s.pending| ==> !HasKey(s.steps, Intent(KeyOf(env.job, s.pending[i])))
    ensures Fresh(env, db, s.(pc := pc))
  {
  }

  lemma NextCallIsFresh(env: Env, start: nat, db: Db, s: Session, sid: nat, asOf: Time, outcome: Outcome)
    requires DbOk(env, start, db) && SessionOk(env, start, db, s) && Fresh(env, db, s) && s.pc.NextCall?
    ensures Fresh(env, db, StepSession(env, FULL, db, s, sid, asOf, outcome).1)
  {
    if s.pc.i < |s.pending| {
      DecideStays(env, db, s, s.pc.i);
      StayingIsFresh(env, db, s, s.pc.i, Decide(env, db, s, s.pc.i));
    }
  }

  lemma IntentIsFresh(env: Env, start: nat, db: Db, s: Session, sid: nat, asOf: Time, outcome: Outcome)
    requires DbOk(env, start, db) && SessionOk(env, start, db, s) && Fresh(env, db, s) && s.pc.CommitIntent?
    ensures var (db', s') := StepSession(env, FULL, db, s, sid, asOf, outcome); Fresh(env, db', s')
  {
    var i := s.pc.i;
    var call := s.pending[i];
    var row := NewRow(s, IntentStep(call), Some(call.id), Some(Intent(KeyOf(env.job, call))), 0);
    if Accepts(FULL, db.rows, row) {
      AcceptedIsCurrent(env, start, db, s, row);
      var (db', s') := StepSession(env, FULL, db, s, sid, asOf, outcome);
      IntentRowIsFresh(env, db, s, i, row, db', s');
    }
  }

  lemma IntentRowIsFresh(env: Env, db: Db, s: Session, i: nat, row: Row, db': Db, s': Session)
    requires Fresh(env, db, s) && s.pc == CommitIntent(i) && i < |s.pending| && Current(db, s)
    requires row.body == IntentStep(s.pending[i]) && row.key == Some(Intent(KeyOf(env.job, s.pending[i])))
    requires db'.rows == db.rows + [row] && s'.steps == s.steps && s'.pending == s.pending
    requires PassIndex(s'.pc) == Some(i) && PastIntent(s'.pc)
    ensures Fresh(env, db', s')
  {
    FoldAppend(env.job, db.rows, row);
    forall j | i <= j < |s.pending|
      ensures HasKey(db.rows + [row], Intent(KeyOf(env.job, s.pending[j]))) ==>
                HasKey(db.rows, Intent(KeyOf(env.job, s.pending[j]))) || s.pending[j] == s.pending[i]
    {
      HasKeyAppend(db.rows, row, Intent(KeyOf(env.job, s.pending[j])));
    }
  }

  lemma ObservationRowIsFresh(env: Env, db: Db, s: Session, i: nat, row: Row, db': Db, s': Session)
    requires Fresh(env, db, s) && s.pc.CommitObservation? && s.pc.i == i < |s.pending| && Current(db, s)
    requires row.body.Observation? && row.key == Some(KeyOf(env.job, s.pending[i]))
    requires db'.rows == db.rows + [row] && s'.steps == s.steps && s'.pending == s.pending
    requires s'.pc == NextCall(i + 1)
    ensures Fresh(env, db', s')
  {
    FoldAppend(env.job, db.rows, row);
    assert s.pending[..i + 1] == s.pending[..i] + [s.pending[i]];
    forall j | i < j < |s.pending|
      ensures HasKey(db.rows + [row], Intent(KeyOf(env.job, s.pending[j]))) ==>
                HasKey(db.rows, Intent(KeyOf(env.job, s.pending[j])))
    {
      HasKeyAppend(db.rows, row, Intent(KeyOf(env.job, s.pending[j])));
    }
  }

  lemma ObservationIsFresh(env: Env, start: nat, db: Db, s: Session, sid: nat, asOf: Time, outcome: Outcome)
    requires DbOk(env, start, db) && SessionOk(env, start, db, s) && Fresh(env, db, s) && s.pc.CommitObservation?
    ensures var (db', s') := StepSession(env, FULL, db, s, sid, asOf, outcome); Fresh(env, db', s')
  {
    var i := s.pc.i;
    var call := s.pending[i];
    var row := NewRow(s, Observation(call.id, call.name, s.pc.result), Some(call.id), Some(KeyOf(env.job, call)), s.pc.cost);
    if Accepts(FULL, db.rows, row) {
      AcceptedIsCurrent(env, start, db, s, row);
      var (db', s') := StepSession(env, FULL, db, s, sid, asOf, outcome);
      ObservationRowIsFresh(env, db, s, i, row, db', s');
    }
  }

  lemma StepLeavesPass(env: Env, schema: Schema, db: Db, s: Session, sid: nat, asOf: Time, outcome: Outcome)
    requires PassIndex(s.pc).None? && !s.pc.LoadLedger?
    ensures PassIndex(StepSession(env, schema, db, s, sid, asOf, outcome).1.pc).None?
  {
  }

  lemma DispatchIsFresh(env: Env, db: Db, s: Session, sid: nat, asOf: Time, outcome: Outcome)
    requires Fresh(env, db, s) && s.pc.Dispatch?
    ensures var (db', s') := StepSession(env, FULL, db, s, sid, asOf, outcome); Fresh(env, db', s')
  {
  }

  lemma WaitIsFresh(env: Env, db: Db, s: Session, sid: nat, asOf: Time, outcome: Outcome)
    requires Fresh(env, db, s) && s.pc.CommitWait?
    ensures var (db', s') := StepSession(env, FULL, db, s, sid, asOf, outcome); Fresh(env, db', s')
  {
  }

  lemma StepKeepsFresh(env: Env, start: nat, db: Db, s: Session, sid: nat, asOf: Time, outcome: Outcome)
    requires DbOk(env, start, db) && SessionOk(env, start, db, s) && Fresh(env, db, s)
    ensures var (db', s') := StepSession(env, FULL, db, s, sid, asOf, outcome); Fresh(env, db', s')
  {
    match s.pc
    case LoadLedger => LoadIsFresh(env, start, db, s, sid, asOf, outcome);
    case NextCall(_) => NextCallIsFresh(env, start, db, s, sid, asOf, outcome);
    case CommitIntent(_) => IntentIsFresh(env, start, db, s, sid, asOf, outcome);
    case CommitObservation(_, _, _) => ObservationIsFresh(env, start, db, s, sid, asOf, outcome);
    case Dispatch(_, _) => DispatchIsFresh(env, db, s, sid, asOf, outcome);
    case CommitWait(_) => WaitIsFresh(env, db, s, sid, asOf, outcome);
    case _ => StepLeavesPass(env, FULL, db, s, sid, asOf, outcome);
  }

  /** One session moved to `s'`; the others saw the ledger grow. */
  lemma MovedKeepsFresh(env: Env, start: nat, w: World, sid: nat, db': Db, s': Session)
    requires FreshInv(env, start, w) && sid < |w.sessions|
    requires Inv(env, start, World(db', w.sessions[sid := s'])) && Grows(w.db, db') && Fresh(env, db', s')
    ensures FreshInv(env, start, World(db', w.sessions[sid := s']))
  {
    var sessions := w.sessions[sid := s'];
    forall k | 0 <= k < |sessions|
      ensures Fresh(env, db', sessions[k])
    {
      if k != sid {
        OthersKeepFresh(env, start, w.db, db', w.sessions[k]);
      }
    }
  }

  lemma IdleKeepsFresh(env: Env, start: nat, w: World, w': World)
    requires FreshInv(env, start, w) && Idle(w, w') && Inv(env, start, w')
    ensures FreshInv(env, start, w')
  {
    forall k | 0 <= k < |w'.sessions|
      ensures Fresh(env, w'.db, w'.sessions[k])
    {
      if k < |w.sessions| {
        assert Fresh(env, w.db, w.sessions[k]);
      }
    }
  }

  lemma NextKeepsFresh(env: Env, start: nat, w: World, a: Action)
    requires FreshInv(env, start, w)
    ensures FreshInv(env, start, Next(env, FULL, w, a))
  {
    NextKeepsInv(env, start, w, a);
    if Moves(w, a) {
      var (db', s') := StepSession(env, FULL, w.db, w.sessions[a.sid], a.sid, a.asOf, a.outcome);
      StepKeepsFresh(env, start, w.db, w.sessions[a.sid], a.sid, a.asOf, a.outcome);
      MovedKeepsFresh(env, start, w, a.sid, db', s');
    } else {
      MovesOrIdle(env, FULL, w, a);
      IdleKeepsFresh(env, start, w, Next(env, FULL, w, a));
    }
  }

  lemma {:induction false} AlwaysFresh(env: Env, now: Time, rows: seq<Row>, schedule: seq<Action>)
    requires StartOk(env.job, rows)
    ensures FreshInv(env, |rows|, Run(env, FULL, Enqueued(now, rows), schedule))
  {
    if schedule != [] {
      AlwaysFresh(env, now, rows, schedule[..|schedule| - 1]);
      NextKeepsFresh(env, |rows|, Run(env, FULL, Enqueued(now, rows), schedule[..|schedule| - 1]),
                     schedule[|schedule| - 1]);
    }
  }

  // ---------------------------------------------------------------------------
  // When the key index fires
  // ---------------------------------------------------------------------------

  /** The index rejects an observation of a session that still holds the end of the ledger exactly when the call
      repeats an earlier one of the same plan. */
  lemma ObservationClashIsDuplicate(env: Env, start: nat, w: World, sid: nat)
    requires FreshInv(env, start, w) && sid < |w.sessions|
    requires w.sessions[sid].pc.CommitObservation? && Current(w.db, w.sessions[sid])
    ensures var s := w.sessions[sid];
            && s.pc.i < |s.pending|
            && (!KeyFree(w.db.rows, Some(KeyOf(env.job, s.pending[s.pc.i]))) <==> s.pending[s.pc.i] in s.pending[..s.pc.i])
  {
    var s := w.sessions[sid];
    var call := s.pending[s.pc.i];
    assert SessionOk(env, start, w.db, s) && Fresh(env, w.db, s);
    CallKeyIsObservation(env, start, w.db.rows, call);
    if call in s.pending[..s.pc.i] {
      var j :| 0 <= j < s.pc.i && s.pending[..s.pc.i][j] == call;
      assert KeyOf(env.job, s.pending[j]) in Observed(w.db.rows);
    }
  }

  predicate Repeats(calls: seq<ToolCall>) {
    exists i, j :: 0 <= i < j < |calls| && calls[i] == calls[j]
  }

  lemma MemberRepeats(calls: seq<ToolCall>, i: nat)
    requires i < |calls| && calls[i] in calls[..i]
    ensures Repeats(calls)
  {
    var j :| 0 <= j < i && calls[..i][j] == calls[i];
    assert calls[j] == calls[i];
  }

  /** If the two schemas ever disagree on a step, the plan being executed asks for the same call twice. */
  lemma KeyIndexFiresOnlyOnRepeats(env: Env, start: nat, w: World, a: Action)
    requires FreshInv(env, start, w)
    requires Next(env, FULL, w, a) != Next(env, SEQ_ONLY, w, a)
    ensures a.Step? && a.sid < |w.sessions| && Repeats(w.sessions[a.sid].pending)
  {
    var s := w.sessions[a.sid];
    assert SessionOk(env, start, w.db, s) && Fresh(env, w.db, s);
    if s.pc.CommitObservation? {
      var call := s.pending[s.pc.i];
      var row := NewRow(s, Observation(call.id, call.name, s.pc.result), Some(call.id), Some(KeyOf(env.job, call)), s.pc.cost);
      AcceptedIsCurrent(env, start, w.db, s, row);
      SeqFreeIsEnd(w.db.rows, s.local.cursor);
      ObservationClashIsDuplicate(env, start, w, a.sid);
      MemberRepeats(s.pending, s.pc.i);
    } else {
      assert s.pc.CommitIntent?;
      var call := s.pending[s.pc.i];
      var row := NewRow(s, IntentStep(call), Some(call.id), Some(Intent(KeyOf(env.job, call))), 0);
      AcceptedIsCurrent(env, start, w.db, s, row);
      SeqFreeIsEnd(w.db.rows, s.local.cursor);
      assert HasKey(w.db.rows, Intent(KeyOf(env.job, call)));
      MemberRepeats(s.pending, s.pc.i);
    }
  }

  // ---------------------------------------------------------------------------
  // Models that never repeat a call within a plan
  // ---------------------------------------------------------------------------

  ghost predicate PlansNeverRepeat(env: Env) {
    env.agent.Some? ==>
      forall state, plan :: env.agent.value(state) == Planned(plan) ==> !Repeats(plan.calls)
  }

  predicate RowsNeverRepeat(rows: seq<Row>) {
    forall i :: 0 <= i < |rows| && rows[i].body.PlanStep? ==> !Repeats(rows[i].body.calls)
  }

  lemma LedgerNeverRepeats(env: Env, start: nat, rows: seq<Row>)
    requires LedgerOk(env, start, rows) && PlansNeverRepeat(env) && RowsNeverRepeat(rows[..start])
    ensures RowsNeverRepeat(rows)
  {
    forall i | 0 <= i < |rows| && rows[i].body.PlanStep?
      ensures !Repeats(rows[i].body.calls)
    {
      if i < start {
        assert rows[..start][i] == rows[i];
      } else {
        assert Decided(env, rows[..i], rows[i]);
      }
    }
  }

  lemma {:induction false} LastCallsNeverRepeat(rows: seq<Row>)
    requires RowsNeverRepeat(rows)
    ensures !Repeats(LastCalls(rows))
  {
    if rows != [] {
      assert forall i :: 0 <= i < |rows| - 1 ==> rows[..|rows| - 1][i] == rows[i];
      LastCallsNeverRepeat(rows[..|rows| - 1]);
    }
  }

  lemma {:induction false} UnobservedNeverRepeats(job: Job, calls: seq<ToolCall>, seen: set<Key>)
    requires !Repeats(calls)
    ensures !Repeats(Unobserved(job, calls, seen))
  {
    if calls != [] {
      var tail := calls[1..];
      assert forall i :: 0 <= i < |tail| ==> tail[i] == calls[i + 1];
      UnobservedNeverRepeats(job, tail, seen);
      var rest := Unobserved(job, tail, seen);
      forall i, j | 0 <= i < j < |[calls[0]] + rest|
        ensures ([calls[0]] + rest)[i] != ([calls[0]] + rest)[j]
      {
        if i == 0 {
          assert rest[j - 1] in tail;
        }
      }
    }
  }

  lemma PendingNeverRepeats(env: Env, start: nat, w: World, sid: nat)
    requires FreshInv(env, start, w) && sid < |w.sessions| && PassIndex(w.sessions[sid].pc).Some?
    requires PlansNeverRepeat(env) && RowsNeverRepeat(w.db.rows[..start])
    ensures !Repeats(w.sessions[sid].pending)
  {
    var s := w.sessions[sid];
    assert SessionOk(env, start, w.db, s);
    LedgerNeverRepeats(env, start, w.db.rows);
    assert forall i :: 0 <= i < |s.steps| ==> s.steps[i] == w.db.rows[i];
    LastCallsNeverRepeat(s.steps);
    UnobservedNeverRepeats(env.job, LastCalls(s.steps), Observed(s.steps));
  }

  /** When no plan asks for a call twice, UNIQUE(run_id, seq) alone yields every execution: the key index never has
      to fire, under any interleaving of any number of sessions. */
  lemma {:induction false} SeqAloneSuffices(env: Env, now: Time, rows: seq<Row>, schedule: seq<Action>)
    requires StartOk(env.job, rows) && PlansNeverRepeat(env) && RowsNeverRepeat(rows)
    ensures Run(env, SEQ_ONLY, Enqueued(now, rows), schedule) == Run(env, FULL, Enqueued(now, rows), schedule)
  {
    if schedule != [] {
      var before, a := schedule[..|schedule| - 1], schedule[|schedule| - 1];
      SeqAloneSuffices(env, now, rows, before);
      AlwaysFresh(env, now, rows, before);
      var w0 := Enqueued(now, rows);
      var w := Run(env, FULL, w0, before);
      assert Run(env, FULL, w0, []) == w0;
      if Next(env, FULL, w, a) != Next(env, SEQ_ONLY, w, a) {
        KeyIndexFiresOnlyOnRepeats(env, |rows|, w, a);
        LedgerStartsWith(env, now, rows, before);
        StepDiffersInPass(env, w, a);
        PendingNeverRepeats(env, |rows|, w, a.sid);
      }
    }
  }

  lemma StepDiffersInPass(env: Env, w: World, a: Action)
    requires Next(env, FULL, w, a) != Next(env, SEQ_ONLY, w, a)
    ensures a.Step? && a.sid < |w.sessions| && PassIndex(w.sessions[a.sid].pc).Some?
  {
  }

  lemma {:induction false} LedgerStartsWith(env: Env, now: Time, rows: seq<Row>, schedule: seq<Action>)
    requires StartOk(env.job, rows)
    ensures rows <= Run(env, FULL, Enqueued(now, rows), schedule).db.rows
  {
    LedgerAlwaysOk(env, now, rows, []);
    AppendOnly(env, |rows|, Enqueued(now, rows), schedule);
  }

  /** The record: no key is on two rows of any ledger any schedule produces, even with only the seq constraint. */
  lemma NoKeyTwice(env: Env, now: Time, rows: seq<Row>, schedule: seq<Action>)
    requires StartOk(env.job, rows) && PlansNeverRepeat(env) && RowsNeverRepeat(rows)
    ensures KeysDistinct(Run(env, SEQ_ONLY, Enqueued(now, rows), schedule).db.rows)
  {
    SeqAloneSuffices(env, now, rows, schedule);
    LedgerAlwaysOk(env, now, rows, schedule);
  }
}
