/** Whole-life termination. No schedule, however long and however adverse, contains infinitely many engine steps: attempts,
    candidates, plans, pending calls and positions within a call run out. */
module Termination {
  import opened Values
  import opened Models
  import opened Rebuild
  import opened Protocol
  import opened LedgerInvariant
  import opened Blocks
  import opened Dispatches
  import opened Shared

  /** Engine work: a step of a live session, or a claim that leases or buries the run. */
  predicate Works(env: Env, w: World, a: Action) {
    || (Moves(w, a) && !w.sessions[a.sid].pc.Stopped?)
    || (a.Claim? && a.asOf <= w.db.now && Runnable(w.db.run, a.asOf))
    || (a.SwapClaim? && SwapWins(env, w.db, a.n))
    || (a.SwapBury? && SwapBuries(env, w.db, a.n) && w.db.run.status != Dead)
  }

  // ---------------------------------------------------------------------------
  // Measure
  // ---------------------------------------------------------------------------

  function Left(n: int): nat {
    if n > 0 then n else 0
  }

  /** Steps a session has left, from a ledger snapshot to its next decision. */
  function LoadRank(env: Env, rows: seq<Row>): nat {
    var pending := PendingCalls(env.job, rows);
    6 + if pending == [] then 0 else Attempts(env, pending[0])
  }

  /** Steps a session has left before it stops or records a plan or an observation. */
  function Rank(env: Env, rows: seq<Row>, s: Session): nat {
    match s.pc
    case Claimed => LoadRank(env, rows) + 4
    case Loaded => LoadRank(env, rows) + 3
    case LoopTop => LoadRank(env, rows) + 2
    case CheckCancel => LoadRank(env, rows) + 1
    case LoadLedger => LoadRank(env, rows)
    case CommitPlan(_) => 3
    case CommitFinal(_) => 2
    case CommitSucceeded(_) => 1
    case NextCall(i) => if i < |s.pending| then Attempts(env, s.pending[i]) + 5 else LoadRank(env, rows) + 3
    case CommitIntent(i) => if i < |s.pending| then Attempts(env, s.pending[i]) + 4 else 1
    case Dispatch(_, left) => left + 3
    case CommitObservation(_, _, _) => 3
    case CommitWait(_) => 2
    case CommitParked => 1
    case CommitError(_, _) => 2
    case CommitFailed(_, _) => 1
    case Stopped => 0
  }

  function Ranks(env: Env, rows: seq<Row>, sessions: seq<Session>): nat {
    if sessions == [] then 0
    else Ranks(env, rows, sessions[..|sessions| - 1]) + Rank(env, rows, sessions[|sessions| - 1])
  }

  /** In decreasing weight: attempts left, candidates that may still overrun them, plans left, calls owed, session
      positions, not yet buried. */
  datatype Measure = Measure(attempts: nat, candidates: nat, plans: nat, owed: nat, positions: nat, alive: nat)
  {
    predicate Below(m: Measure) {
      if attempts != m.attempts then attempts < m.attempts
      else if candidates != m.candidates then candidates < m.candidates
      else if plans != m.plans then plans < m.plans
      else if owed != m.owed then owed < m.owed
      else if positions != m.positions then positions < m.positions
      else alive < m.alive
    }
  }

  /** The candidates a run that is out of attempts may still be claimed with: all were read before it was. */
  function Overrunning(env: Env, db: Db): set<nat> {
    if db.run.attempt < env.maxAttempts then {}
    else set n: nat | n < |db.looked| && n !in db.used && db.looked[n].row.attempt < env.maxAttempts
  }

  function MeasureOf(env: Env, w: World): Measure {
    Measure(Left(env.maxAttempts - w.db.run.attempt),
            |Overrunning(env, w.db)|,
            Left(env.maxSteps - PlanCount(w.db.rows)),
            |PendingCalls(env.job, w.db.rows)|,
            Ranks(env, w.db.rows, w.sessions),
            if w.db.run.status == Dead then 0 else 1)
  }

  // ---------------------------------------------------------------------------
  // Sums over sessions
  // ---------------------------------------------------------------------------

  lemma {:induction false} RanksUpdate(env: Env, rows: seq<Row>, sessions: seq<Session>, k: nat, s: Session)
    requires k < |sessions|
    ensures Ranks(env, rows, sessions[k := s]) + Rank(env, rows, sessions[k])
         == Ranks(env, rows, sessions) + Rank(env, rows, s)
  {
    var n := |sessions| - 1;
    if k < n {
      RanksUpdate(env, rows, sessions[..n], k, s);
      assert sessions[k := s][..n] == sessions[..n][k := s];
    } else {
      assert sessions[k := s][..n] == sessions[..n];
    }
  }

  lemma {:induction false} RanksMonotone(env: Env, rows: seq<Row>, rows': seq<Row>, sessions: seq<Session>)
    requires LoadRank(env, rows') <= LoadRank(env, rows)
    ensures Ranks(env, rows', sessions) <= Ranks(env, rows, sessions)
  {
    if sessions != [] {
      RanksMonotone(env, rows, rows', sessions[..|sessions| - 1]);
    }
  }

  // ---------------------------------------------------------------------------
  // Every step of a live session goes down
  // ---------------------------------------------------------------------------

  lemma {:induction false} ObservedShrinks(job: Job, calls: seq<ToolCall>, seen: set<Key>, key: Key)
    ensures |Unobserved(job, calls, seen + {key})| <= |Unobserved(job, calls, seen)|
    ensures Unobserved(job, calls, seen) != [] && key == KeyOf(job, Unobserved(job, calls, seen)[0]) ==>
              |Unobserved(job, calls, seen + {key})| < |Unobserved(job, calls, seen)|
  {
    if calls != [] {
      ObservedShrinks(job, calls[1..], seen, key);
    }
  }

  /** A plan or an observation pays with plans left or calls owed. */
  lemma DecisionPays(env: Env, start: nat, rows: seq<Row>, row: Row)
    requires LedgerOk(env, start, rows + [row]) && start <= |rows| && (row.body.PlanStep? || row.body.Observation?)
    ensures row.body.PlanStep? ==>
              Left(env.maxSteps - PlanCount(rows + [row])) < Left(env.maxSteps - PlanCount(rows))
    ensures row.body.Observation? ==>
              && PlanCount(rows + [row]) == PlanCount(rows)
              && |PendingCalls(env.job, rows + [row])| < |PendingCalls(env.job, rows)|
  {
    var more := rows + [row];
    assert more[..|rows|] == rows && more[|rows|] == row;
    assert Shaped(env.job, more[..|rows|], more[|rows|]) && Decided(env, more[..|rows|], more[|rows|]);
    FoldAppend(env.job, rows, row);
    if row.body.Observation? {
      ObservedShrinks(env.job, LastCalls(rows), Observed(rows), row.key.value);
    }
  }

  /** Any other row owes nothing more and makes no session's way longer. */
  lemma QuietRowCosts(env: Env, rows: seq<Row>, row: Row)
    requires !row.body.PlanStep? && !row.body.Observation?
    ensures PlanCount(rows + [row]) == PlanCount(rows)
    ensures |PendingCalls(env.job, rows + [row])| <= |PendingCalls(env.job, rows)|
    ensures LoadRank(env, rows + [row]) <= LoadRank(env, rows)
  {
    FoldAppend(env.job, rows, row);
  }

  /** The row a step appends, if it is no decision, leaves the session with less to do. */
  lemma InsertGoesDown(env: Env, start: nat, db: Db, s: Session, sid: nat, asOf: Time, outcome: Outcome)
    requires SessionOk(env, start, db, s) && Inserts(s.pc)
    ensures var (db', s') := StepSession(env, FULL, db, s, sid, asOf, outcome);
            (s.pc.CommitPlan? || s.pc.CommitObservation? ==> db'.rows == db.rows) ==>
              Rank(env, db.rows, s') < Rank(env, db.rows, s)
  {
  }

  lemma OtherGoesDown(env: Env, db: Db, s: Session, sid: nat, asOf: Time, outcome: Outcome)
    requires !s.pc.Stopped? && !s.pc.LoadLedger? && !s.pc.NextCall? && !Inserts(s.pc)
    ensures var (db', s') := StepSession(env, FULL, db, s, sid, asOf, outcome);
            Rank(env, db.rows, s') < Rank(env, db.rows, s)
  {
  }

  lemma LoadGoesDown(env: Env, start: nat, db: Db, s: Session, sid: nat, asOf: Time, outcome: Outcome)
    requires DbOk(env, start, db) && SessionOk(env, start, db, s) && s.pc.LoadLedger?
    ensures Rank(env, db.rows, StepSession(env, FULL, db, s, sid, asOf, outcome).1) < Rank(env, db.rows, s)
  {
    OrderBySeqIsIdentity(db.rows);
  }

  lemma NextCallGoesDown(env: Env, start: nat, db: Db, s: Session)
    requires SessionOk(env, start, db, s) && s.pc.NextCall?
    ensures Rank(env, db.rows, s.(pc := Decide(env, db, s, s.pc.i))) < Rank(env, db.rows, s)
  {
    if s.pc.i < |s.pending| {
      DecideActs(env, db, s, s.pc.i);
    }
  }

  lemma StepGoesDown(env: Env, start: nat, db: Db, s: Session, sid: nat, asOf: Time, outcome: Outcome)
    requires DbOk(env, start, db) && SessionOk(env, start, db, s) && !s.pc.Stopped?
    ensures var (db', s') := StepSession(env, FULL, db, s, sid, asOf, outcome);
            (s.pc.CommitPlan? || s.pc.CommitObservation? ==> db'.rows == db.rows) ==>
              Rank(env, db.rows, s') < Rank(env, db.rows, s)
  {
    if s.pc.LoadLedger? {
      LoadGoesDown(env, start, db, s, sid, asOf, outcome);
    } else if s.pc.NextCall? {
      NextCallGoesDown(env, start, db, s);
    } else if Inserts(s.pc) {
      InsertGoesDown(env, start, db, s, sid, asOf, outcome);
    } else {
      OtherGoesDown(env, db, s, sid, asOf, outcome);
    }
  }

  /** The kind of row a step appends. */
  lemma AppendedBody(env: Env, db: Db, s: Session, sid: nat, asOf: Time, outcome: Outcome)
    ensures var rows := StepSession(env, FULL, db, s, sid, asOf, outcome).0.rows;
            rows != db.rows ==>
              && |rows| == |db.rows| + 1 && rows == db.rows + [rows[|db.rows|]]
              && (rows[|db.rows|].body.PlanStep? || rows[|db.rows|].body.Observation? <==>
                    s.pc.CommitPlan? || s.pc.CommitObservation?)
  {
  }

  lemma MoveGoesDown(env: Env, start: nat, w: World, sid: nat, asOf: Time, outcome: Outcome)
    requires Inv(env, start, w) && sid < |w.sessions| && !w.sessions[sid].pc.Stopped?
    ensures var (db', s') := StepSession(env, FULL, w.db, w.sessions[sid], sid, asOf, outcome);
            MeasureOf(env, World(db', w.sessions[sid := s'])).Below(MeasureOf(env, w))
  {
    var s := w.sessions[sid];
    var (db', s') := StepSession(env, FULL, w.db, s, sid, asOf, outcome);
    assert SessionOk(env, start, w.db, s);
    StepKeepsAttempt(env, FULL, w.db, s, sid, asOf, outcome);
    StepKeepsLooked(env, w.db, s, sid, asOf, outcome);
    StepKeepsOk(env, start, w.db, s, sid, asOf, outcome);
    AppendedBody(env, w.db, s, sid, asOf, outcome);
    StepGoesDown(env, start, w.db, s, sid, asOf, outcome);
    RanksUpdate(env, w.db.rows, w.sessions, sid, s');
    if db'.rows != w.db.rows {
      var row := db'.rows[|w.db.rows|];
      if row.body.PlanStep? || row.body.Observation? {
        DecisionPays(env, start, w.db.rows, row);
      } else {
        QuietRowCosts(env, w.db.rows, row);
        RanksMonotone(env, w.db.rows, db'.rows, w.sessions[sid := s']);
      }
    }
  }

  // ---------------------------------------------------------------------------
  // Nothing else goes up
  // ---------------------------------------------------------------------------

  predicate AtMost(m: Measure, n: Measure) {
    m == n || m.Below(n)
  }

  lemma {:induction false} StoppingShrinks(env: Env, rows: seq<Row>, sessions: seq<Session>, k: nat)
    requires k < |sessions|
    ensures Ranks(env, rows, sessions[k := sessions[k].(pc := Stopped)]) <= Ranks(env, rows, sessions)
  {
    RanksUpdate(env, rows, sessions, k, sessions[k].(pc := Stopped));
  }

  /** Looking at a run that is out of attempts gives nothing to claim it with. */
  lemma LookGivesNone(env: Env, w: World, a: Action)
    requires a.Look? && w.db.run.attempt >= env.maxAttempts
    ensures Overrunning(env, Next(env, FULL, w, a).db) == Overrunning(env, w.db)
  {
  }

  /** An update costs its candidate. */
  lemma UpdateCosts(env: Env, w: World, a: Action)
    requires a.SwapClaim? && Held(w.db, a.n) && w.db.looked[a.n].row.attempt < env.maxAttempts
    requires w.db.run.attempt >= env.maxAttempts
    ensures |Overrunning(env, Next(env, FULL, w, a).db)| < |Overrunning(env, w.db)|
  {
    assert a.n in Overrunning(env, w.db);
    assert Overrunning(env, Next(env, FULL, w, a).db) == Overrunning(env, w.db) - {a.n};
  }

  /** Burying costs nothing but the run. */
  lemma BuryingCostsNone(env: Env, w: World, a: Action)
    requires a.SwapBury?
    ensures Overrunning(env, Next(env, FULL, w, a).db) == Overrunning(env, w.db)
  {
  }

  lemma UpdateGoesDown(env: Env, w: World, a: Action)
    requires a.SwapClaim? || a.SwapBury?
    ensures AtMost(MeasureOf(env, Next(env, FULL, w, a)), MeasureOf(env, w))
    ensures Works(env, w, a) ==> MeasureOf(env, Next(env, FULL, w, a)).Below(MeasureOf(env, w))
  {
    if a.SwapBury? {
      BuryingCostsNone(env, w, a);
    } else if Held(w.db, a.n) && w.db.looked[a.n].row.attempt < env.maxAttempts <= w.db.run.attempt {
      UpdateCosts(env, w, a);
    }
  }

  /** Actions that are no step of a session: a claim spends an attempt or a candidate, the others cost nothing. */
  lemma OtherActionGoesDown(env: Env, w: World, a: Action)
    requires !Moves(w, a)
    ensures AtMost(MeasureOf(env, Next(env, FULL, w, a)), MeasureOf(env, w))
    ensures Works(env, w, a) ==> MeasureOf(env, Next(env, FULL, w, a)).Below(MeasureOf(env, w))
  {
    if a.Crash? && a.sid < |w.sessions| {
      StoppingShrinks(env, w.db.rows, w.sessions, a.sid);
    } else if a.Look? && w.db.run.attempt >= env.maxAttempts {
      LookGivesNone(env, w, a);
    } else if a.SwapBury? || a.SwapClaim? {
      UpdateGoesDown(env, w, a);
    }
  }

  lemma NextGoesDown(env: Env, start: nat, w: World, a: Action)
    requires Inv(env, start, w)
    ensures AtMost(MeasureOf(env, Next(env, FULL, w, a)), MeasureOf(env, w))
    ensures Works(env, w, a) ==> MeasureOf(env, Next(env, FULL, w, a)).Below(MeasureOf(env, w))
  {
    if !Moves(w, a) {
      OtherActionGoesDown(env, w, a);
    } else if w.sessions[a.sid].pc.Stopped? {
      assert w.sessions[a.sid := w.sessions[a.sid]] == w.sessions;
    } else {
      MoveGoesDown(env, start, w, a.sid, a.asOf, a.outcome);
    }
  }

  // ---------------------------------------------------------------------------
  // Infinite schedules
  // ---------------------------------------------------------------------------

  /** The world after the first `n` actions of an infinite schedule. */
  function WorldAt(env: Env, w: World, schedule: nat -> Action, n: nat): World {
    if n == 0 then w else Next(env, FULL, WorldAt(env, w, schedule, n - 1), schedule(n - 1))
  }

  lemma {:induction false} WorldAtInv(env: Env, start: nat, w: World, schedule: nat -> Action, n: nat)
    requires Inv(env, start, w)
    ensures Inv(env, start, WorldAt(env, w, schedule, n))
  {
    if n > 0 {
      WorldAtInv(env, start, w, schedule, n - 1);
      NextKeepsInv(env, start, WorldAt(env, w, schedule, n - 1), schedule(n - 1));
    }
  }

  lemma AtMostTransitive(a: Measure, b: Measure, c: Measure)
    requires AtMost(a, b) && AtMost(b, c)
    ensures AtMost(a, c)
  {
  }

  ghost predicate Descends(measures: nat -> Measure) {
    forall k: nat :: AtMost(measures(k + 1), measures(k))
  }

  lemma {:induction false} DescendsFar(measures: nat -> Measure, n: nat, m: nat)
    requires Descends(measures) && n <= m
    ensures AtMost(measures(m), measures(n))
    decreases m
  {
    if n < m {
      DescendsFar(measures, n, m - 1);
      assert AtMost(measures((m - 1) + 1), measures(m - 1));
      AtMostTransitive(measures(m), measures(m - 1), measures(n));
    }
  }

  lemma BelowTransitive(a: Measure, b: Measure, c: Measure)
    requires a.Below(b) && AtMost(b, c)
    ensures a.Below(c)
  {
  }

  /** A sequence that never goes up goes strictly down only finitely often. */
  lemma {:induction false} FinitelyOftenDown(measures: nat -> Measure, works: nat -> bool, n: nat, below: Measure)
    returns (q: nat)
    requires Descends(measures) && below == measures(n)
    requires forall k: nat :: works(k) ==> measures(k + 1).Below(measures(k))
    ensures forall m: nat :: m >= q ==> !works(m)
    decreases below.attempts, below.candidates, below.plans, below.owed, below.positions, below.alive
  {
    if forall m: nat :: m >= n ==> !works(m) {
      q := n;
    } else {
      var m: nat :| m >= n && works(m);
      DescendsFar(measures, n, m);
      BelowTransitive(measures(m + 1), measures(m), below);
      q := FinitelyOftenDown(measures, works, m + 1, measures(m + 1));
    }
  }

  /** From point `q` on the engine has nothing left to do. */
  ghost predicate QuietFrom(env: Env, w: World, schedule: nat -> Action, q: nat) {
    forall m: nat :: m >= q ==> !Works(env, WorldAt(env, w, schedule, m), schedule(m))
  }

  /** In every infinite schedule, whatever it claims, crashes, approves and delays, there is a point after which no session
      takes a step and no claim succeeds. */
  lemma EngineTerminates(env: Env, now: Time, rows: seq<Row>, schedule: nat -> Action)
    requires StartOk(env.job, rows)
    ensures exists q: nat :: QuietFrom(env, Enqueued(now, rows), schedule, q)
  {
    LedgerAlwaysOk(env, now, rows, []);
    var w := Enqueued(now, rows);
    var measures := (k: nat) => MeasureOf(env, WorldAt(env, w, schedule, k));
    var works := (k: nat) => Works(env, WorldAt(env, w, schedule, k), schedule(k));
    forall k: nat
      ensures AtMost(measures(k + 1), measures(k)) && (works(k) ==> measures(k + 1).Below(measures(k)))
    {
      WorldAtInv(env, |rows|, w, schedule, k);
      NextGoesDown(env, |rows|, WorldAt(env, w, schedule, k), schedule(k));
    }
    var q := FinitelyOftenDown(measures, works, 0, measures(0));
    forall m: nat | m >= q
      ensures !Works(env, WorldAt(env, w, schedule, m), schedule(m))
    {
      assert !works(m);
    }
    assert QuietFrom(env, w, schedule, q);
  }
}
