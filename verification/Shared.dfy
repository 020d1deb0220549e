/** The database as a mutable object that other sessions and API handlers change between one's own transactions. */
module Shared {
  import opened Values
  import opened Models
  import opened Rebuild
  import opened Protocol
  import opened LedgerInvariant

  /** The ledger only grows, and stays numbered without gaps, from one point of a schedule to a later one. */
  lemma {:induction false} LedgerGrew(env: Env, start: World, schedule: seq<Action>, later: seq<Action>)
    requires start == Enqueued(start.db.now, start.db.rows) && StartOk(env.job, start.db.rows) && schedule <= later
    ensures Run(env, FULL, start, schedule).db.rows <= Run(env, FULL, start, later).db.rows
    ensures GapFree(Run(env, FULL, start, later).db.rows)
    decreases |later|
  {
    LedgerAlwaysOk(env, start.db.now, start.db.rows, later);
    if |schedule| < |later| {
      var before := later[..|later| - 1];
      LedgerGrew(env, start, schedule, before);
      LedgerAlwaysOk(env, start.db.now, start.db.rows, before);
      NextKeepsInv(env, |start.db.rows|, Run(env, FULL, start, before), later[|later| - 1]);
    } else {
      assert schedule == later;
    }
  }

  lemma {:induction false} TimeAdvances(env: Env, start: World, schedule: seq<Action>, later: seq<Action>)
    requires schedule <= later
    ensures Run(env, FULL, start, schedule).db.now <= Run(env, FULL, start, later).db.now
    decreases |later|
  {
    if |schedule| < |later| {
      var before := later[..|later| - 1];
      TimeAdvances(env, start, schedule, before);
      NowAdvances(env, Run(env, FULL, start, before), later[|later| - 1]);
    } else {
      assert schedule == later;
    }
  }

  lemma NowAdvances(env: Env, w: World, a: Action)
    ensures w.db.now <= Next(env, FULL, w, a).db.now
  {
    if Moves(w, a) {
      StepKeepsNow(env, w.db, w.sessions[a.sid], a.sid, a.asOf, a.outcome);
    }
  }

  lemma StepKeepsNow(env: Env, db: Db, s: Session, sid: nat, asOf: Time, outcome: Outcome)
    ensures StepSession(env, FULL, db, s, sid, asOf, outcome).0.now == db.now
    ensures StepSession(env, FULL, db, s, sid, asOf, outcome).0.run.attempt == db.run.attempt
  {
  }

  /** Attempts never go down, so a run that was out of attempts when read still is. */
  lemma {:induction false} AttemptsAdvance(env: Env, start: World, schedule: seq<Action>, later: seq<Action>)
    requires schedule <= later
    ensures Run(env, FULL, start, schedule).db.run.attempt <= Run(env, FULL, start, later).db.run.attempt
    decreases |later|
  {
    if |schedule| < |later| {
      var before := later[..|later| - 1];
      AttemptsAdvance(env, start, schedule, before);
      var w, a := Run(env, FULL, start, before), later[|later| - 1];
      if Moves(w, a) {
        StepKeepsNow(env, w.db, w.sessions[a.sid], a.sid, a.asOf, a.outcome);
      }
    } else {
      assert schedule == later;
    }
  }

  lemma StepKeepsLooked(env: Env, db: Db, s: Session, sid: nat, asOf: Time, outcome: Outcome)
    ensures StepSession(env, FULL, db, s, sid, asOf, outcome).0.looked == db.looked
    ensures StepSession(env, FULL, db, s, sid, asOf, outcome).0.used == db.used
  {
  }

  lemma {:induction false} LookedStays(env: Env, start: World, schedule: seq<Action>, later: seq<Action>)
    requires schedule <= later
    ensures Run(env, FULL, start, schedule).db.looked <= Run(env, FULL, start, later).db.looked
    decreases |later|
  {
    if |schedule| < |later| {
      var before := later[..|later| - 1];
      LookedStays(env, start, schedule, before);
      var w, a := Run(env, FULL, start, before), later[|later| - 1];
      if Moves(w, a) {
        StepKeepsLooked(env, w.db, w.sessions[a.sid], a.sid, a.asOf, a.outcome);
      }
    } else {
      assert schedule == later;
    }
  }

  /** Nobody but its claimer makes an update with a candidate. */
  predicate Leaves(a: Action, n: nat) {
    (a.SwapClaim? || a.SwapBury?) ==> a.n != n
  }

  lemma LeftIsHeld(env: Env, w: World, a: Action, n: nat)
    requires Held(w.db, n) && Leaves(a, n)
    ensures var db' := Next(env, FULL, w, a).db; Held(db', n) && db'.looked[n] == w.db.looked[n]
  {
    if Moves(w, a) {
      StepKeepsLooked(env, w.db, w.sessions[a.sid], a.sid, a.asOf, a.outcome);
    }
  }

  /** An action that is not a session's own: neither its step nor its crash. */
  predicate Foreign(a: Action, sid: nat) {
    (a.Step? || a.Crash?) ==> a.sid != sid
  }

  lemma ForeignKeepsSession(env: Env, schema: Schema, w: World, a: Action, sid: nat)
    requires Foreign(a, sid) && sid < |w.sessions|
    ensures sid < |Next(env, schema, w, a).sessions| && Next(env, schema, w, a).sessions[sid] == w.sessions[sid]
  {
  }

  /** Each column is what the session wrote, if it changed its own copy of it, and what it was otherwise. */
  predicate WroteColumns(was: RunRow, now: RunRow, loaded: RunRow, wanted: RunRow) {
    && now.status == (if wanted.status == loaded.status then was.status else wanted.status)
    && now.cursor == (if wanted.cursor == loaded.cursor then was.cursor else wanted.cursor)
    && now.owner == (if wanted.owner == loaded.owner then was.owner else wanted.owner)
    && now.expiry == (if wanted.expiry == loaded.expiry then was.expiry else wanted.expiry)
    && now.attempt == (if wanted.attempt == loaded.attempt then was.attempt else wanted.attempt)
    && now.cancel == (if wanted.cancel == loaded.cancel then was.cancel else wanted.cancel)
    && now.error == (if wanted.error == loaded.error then was.error else wanted.error)
    && now.output == (if wanted.output == loaded.output then was.output else wanted.output)
  }

  lemma StepFlushes(env: Env, db: Db, s: Session, sid: nat, asOf: Time, outcome: Outcome)
    requires !s.pc.Claimed? && !s.pc.LoopTop? && !s.pc.CheckCancel?
    ensures var (db', s') := StepSession(env, FULL, db, s, sid, asOf, outcome);
            db'.run == Flush(db.run, s.local, s'.local)
  {
  }

  /** A transaction writes the columns its session changed in its own copy and no others, so what others wrote meanwhile
      is overwritten only where the session means to write. A heartbeat writes the expiry in any case, and nothing else. */
  lemma WritesWhatChanged(env: Env, db: Db, s: Session, sid: nat, asOf: Time, outcome: Outcome)
    ensures var (db', s') := StepSession(env, FULL, db, s, sid, asOf, outcome);
            if s.pc == LoopTop && db.run.owner == s.local.owner
            then db'.run == db.run.(expiry := Some(asOf + env.leaseSeconds))
            else WroteColumns(db.run, db'.run, s.local, s'.local)
  {
    if !s.pc.Claimed? && !s.pc.LoopTop? && !s.pc.CheckCancel? {
      StepFlushes(env, db, s, sid, asOf, outcome);
    }
  }

  /** The row a session is about to insert, and where it goes on from there. Parking on an approval is not among them:
      it inserts into two tables. */
  function InsertOf(env: Env, s: Session): Option<(Row, Pc)> {
    match s.pc
    case CommitPlan(plan) =>
      Some((NewRow(s, PlanStep(plan.content, plan.calls), None, None, plan.cost),
            if plan.IsFinal() then CommitFinal(plan) else LoopTop))
    case CommitFinal(plan) => Some((NewRow(s, FinalStep(plan.output), None, None, 0), CommitSucceeded(plan.output)))
    case CommitObservation(i, result, cost) =>
      if i >= |s.pending| then None
      else
        var call := s.pending[i];
        Some((NewRow(s, Observation(call.id, call.name, result), Some(call.id), Some(KeyOf(env.job, call)), cost),
              NextCall(i + 1)))
    case CommitIntent(i) =>
      if i >= |s.pending| || s.pending[i].name !in env.tools then None
      else
        var call := s.pending[i];
        Some((NewRow(s, IntentStep(call), Some(call.id), Some(Intent(KeyOf(env.job, call))), 0),
              StartDispatch(env, i, env.tools[call.name] + 1)))
    case CommitError(class_, detail) =>
      Some((NewRow(s, ErrorStep(class_, detail), None, None, 0), CommitFailed(class_, detail)))
    case _ => None
  }

  /** Whatever the tables hold, the insert is the session's next step. */
  lemma InsertIsStep(env: Env, schema: Schema, d: Db, s: Session, sid: nat, asOf: Time, outcome: Outcome)
    requires InsertOf(env, s).Some?
    ensures var (row, next) := InsertOf(env, s).value;
            row.seqNo == s.local.cursor + 1
            && StepSession(env, schema, d, s, sid, asOf, outcome) == CommitStep(schema, d, s, sid, row, next)
  {
  }

  lemma WaitRefused(env: Env, d: Db, s: Session, sid: nat, asOf: Time, outcome: Outcome, i: nat, call: ToolCall)
    requires s.pc == CommitWait(i) && i < |s.pending| && s.pending[i] == call
    requires || HasApproval(d.approvals, call.id)
             || !Accepts(FULL, d.rows, NewRow(s, WaitStep(call), Some(call.id), None, 0))
    ensures StepSession(env, FULL, d, s, sid, asOf, outcome) == (d, s.(pc := Stopped))
  {
  }

  lemma WaitRecorded(env: Env, d: Db, s: Session, sid: nat, asOf: Time, outcome: Outcome, i: nat, call: ToolCall,
                     run: RunRow)
    requires s.pc == CommitWait(i) && i < |s.pending| && s.pending[i] == call
    requires !HasApproval(d.approvals, call.id) && run == s.local.(cursor := s.local.cursor + 1)
    requires Accepts(FULL, d.rows, NewRow(s, WaitStep(call), Some(call.id), None, 0))
    ensures StepSession(env, FULL, d, s, sid, asOf, outcome)
         == (d.(rows := d.rows + [NewRow(s, WaitStep(call), Some(call.id), None, 0)], writers := d.writers + [sid],
                run := Flush(d.run, s.local, run), approvals := d.approvals + [Approval(call, Verdict.Pending)]),
             s.(local := run, pc := CommitParked))
  {
  }

  /** A ledger read is the ledger itself, however the rows are stored. */
  lemma LoadIsStep(env: Env, d: Db, s: Session, sid: nat, asOf: Time, outcome: Outcome)
    requires s.pc == LoadLedger && env.agent.Some? && GapFree(d.rows)
    ensures var pending := PendingCalls(env.job, d.rows);
            && OrderBySeq(d.rows) == d.rows
            && StepSession(env, FULL, d, s, sid, asOf, outcome)
               == (d, s.(steps := d.rows, pending := pending, pc := AfterLoad(env, d.rows, pending)))
  {
    OrderBySeqIsIdentity(d.rows);
  }

  /** Worlds `history` as the actions of `schedule` turn one into the next. */
  ghost predicate IsHistory(env: Env, schedule: seq<Action>, history: seq<World>) {
    && |history| == |schedule| + 1
    && forall n {:trigger Next(env, FULL, history[n], schedule[n])} :: 0 <= n < |schedule| ==>
         history[n + 1] == Next(env, FULL, history[n], schedule[n])
  }

  lemma {:induction false} HistoryIsRun(env: Env, schedule: seq<Action>, history: seq<World>, n: nat)
    requires IsHistory(env, schedule, history) && n <= |schedule|
    ensures history[n] == Run(env, FULL, history[0], schedule[..n])
  {
    if n > 0 {
      HistoryIsRun(env, schedule, history, n - 1);
      assert schedule[..n][..n - 1] == schedule[..n - 1];
      assert history[n - 1 + 1] == Next(env, FULL, history[n - 1], schedule[n - 1]);
    }
  }

  /** `schedule` is everything that happened to the run since `start`, `history` the worlds it went through. */
  class Database {
    const env: Env
    const start: World
    var world: World
    ghost var schedule: seq<Action>
    ghost var history: seq<World>

    ghost predicate Valid()
      reads this
    {
      IsHistory(env, schedule, history) && history[0] == start && history[|schedule|] == world
    }

    /** The run was enqueued with a ledger a run may start from. */
    ghost predicate Started()
      reads this
    {
      Valid() && start == Enqueued(start.db.now, start.db.rows) && StartOk(env.job, start.db.rows)
    }

    /** Where the database is, a schedule leads. */
    lemma IsRun(n: nat)
      requires Valid() && n <= |schedule|
      ensures history[n] == Run(env, FULL, start, schedule[..n])
      ensures world == Run(env, FULL, start, schedule)
    {
      HistoryIsRun(env, schedule, history, n);
      HistoryIsRun(env, schedule, history, |schedule|);
      assert schedule[..|schedule|] == schedule;
    }

    /** From any earlier point on, rows were only added. */
    lemma Grew(n: nat)
      requires Started() && n <= |schedule|
      ensures history[n].db.rows <= world.db.rows && GapFree(world.db.rows)
    {
      IsRun(n);
      LedgerGrew(env, start, schedule[..n], schedule);
    }

    /** Time went forward, attempts never went down, and what claimers hold they keep. */
    lemma Advanced(n: nat)
      requires Valid() && n <= |schedule|
      ensures history[n].db.now <= world.db.now && history[n].db.run.attempt <= world.db.run.attempt
      ensures history[n].db.looked <= world.db.looked
    {
      IsRun(n);
      TimeAdvances(env, start, schedule[..n], schedule);
      AttemptsAdvance(env, start, schedule[..n], schedule);
      LookedStays(env, start, schedule[..n], schedule);
    }

    constructor (env: Env, start: World)
      ensures Valid() && this.env == env && this.start == start && schedule == []
    {
      this.env, this.start, this.world, this.schedule, this.history := env, start, start, [], [start];
    }

    /** Anything that can happen in one action happens. */
    method Perform(a: Action)
      requires Valid()
      modifies this
      ensures Valid() && schedule == old(schedule) + [a] && world == Next(env, FULL, old(world), a)
      ensures history == old(history) + [world]
    {
      world := Next(env, FULL, world, a);
      schedule, history := schedule + [a], history + [world];
    }

    /** Time passes: any number of actions, of any sessions and handlers. */
    method Elapse()
      requires Valid()
      modifies this
      ensures Valid() && old(schedule) <= schedule && old(history) <= history
    {
      var actions: seq<Action> := *;
      for n := 0 to |actions|
        invariant Valid() && old(schedule) <= schedule && old(history) <= history
      {
        Perform(actions[n]);
      }
    }

    /** Time passes for one session between two of its transactions: everybody else may act, it does not. */
    method ElapseAround(sid: nat)
      requires Valid() && sid < |world.sessions|
      modifies this
      ensures Valid() && old(schedule) <= schedule && old(history) <= history
      ensures sid < |world.sessions| && world.sessions[sid] == old(world.sessions[sid])
      ensures forall i :: |old(schedule)| <= i < |schedule| ==> Foreign(schedule[i], sid)
    {
      var actions: seq<Action> := *;
      for n := 0 to |actions|
        invariant Valid() && old(schedule) <= schedule && old(history) <= history
        invariant sid < |world.sessions| && world.sessions[sid] == old(world.sessions[sid])
        invariant forall i :: |old(schedule)| <= i < |schedule| ==> Foreign(schedule[i], sid)
      {
        if Foreign(actions[n], sid) {
          ForeignKeepsSession(env, FULL, world, actions[n], sid);
          Perform(actions[n]);
        }
      }
    }

    /** Time passes for a claimer between its read and its update: nobody else updates with its candidate. */
    method ElapseHolding(n: nat)
      requires Valid() && Held(world.db, n)
      modifies this
      ensures Valid() && old(schedule) <= schedule && old(history) <= history
      ensures Held(world.db, n) && world.db.looked[n] == old(world.db.looked[n])
    {
      var actions: seq<Action> := *;
      for i := 0 to |actions|
        invariant Valid() && old(schedule) <= schedule && old(history) <= history
        invariant Held(world.db, n) && world.db.looked[n] == old(world.db.looked[n])
      {
        if Leaves(actions[i], n) {
          LeftIsHeld(env, world, actions[i], n);
          Perform(actions[i]);
        }
      }
    }

    /** Commit what session `sid` computed: `tables` are the new tables, `session` its new private state. What a
        session may commit is exactly its next step in the protocol. */
    method Transact(sid: nat, asOf: Time, outcome: Outcome, tables: Db, session: Session)
      requires Valid() && sid < |world.sessions| && asOf <= world.db.now
      requires StepSession(env, FULL, world.db, world.sessions[sid], sid, asOf, outcome) == (tables, session)
      modifies this
      ensures Valid() && schedule == old(schedule) + [Step(sid, asOf, outcome)]
      ensures world == World(tables, old(world.sessions)[sid := session]) && history == old(history) + [world]
    {
      world := World(tables, world.sessions[sid := session]);
      schedule, history := schedule + [Step(sid, asOf, outcome)], history + [world];
    }

    /** An API handler commits what it computed, which is exactly its action in the protocol. */
    method Handle(a: Action, tables: Db)
      requires Valid() && Next(env, FULL, world, a) == World(tables, world.sessions)
      modifies this
      ensures Valid() && schedule == old(schedule) + [a] && history == old(history) + [world]
      ensures world == World(tables, old(world.sessions))
    {
      world := World(tables, world.sessions);
      schedule, history := schedule + [a], history + [world];
    }

    /** A transaction that inserts one step and writes the run row, where the protocol says so. A rejected insert rolls
        everything back and ends the session. */
    method Insert(sid: nat, step: Row, wanted: RunRow, next: Pc) returns (ok: bool)
      requires Valid() && sid < |world.sessions|
      requires var s := world.sessions[sid];
               && step.seqNo == s.local.cursor + 1 && wanted == s.local.(cursor := s.local.cursor + 1)
               && InsertOf(env, s) == Some((step, next))
      modifies this
      ensures Valid() && schedule == old(schedule) + [Step(sid, old(world.db.now), Returned(Null))]
      ensures ok == Accepts(FULL, old(world.db.rows), step) && history == old(history) + [world]
      ensures var d, s := old(world.db), old(world.sessions[sid]);
              world == if ok
                       then World(d.(rows := d.rows + [step], writers := d.writers + [sid],
                                     run := Flush(d.run, s.local, wanted)),
                                  old(world.sessions)[sid := s.(local := wanted, pc := next)])
                       else World(d, old(world.sessions)[sid := s.(pc := Stopped)])
    {
      var d, s := world.db, world.sessions[sid];
      InsertIsStep(env, FULL, d, s, sid, d.now, Returned(Null));
      ok := Accepts(FULL, d.rows, step);
      if ok {
        Transact(sid, d.now, Returned(Null),
                 d.(rows := d.rows + [step], writers := d.writers + [sid], run := Flush(d.run, s.local, wanted)),
                 s.(local := wanted, pc := next));
      } else {
        Transact(sid, d.now, Returned(Null), d, s.(pc := Stopped));
      }
    }

    /** The transaction that asks a human: approval row and approval_wait step, both or neither. */
    method InsertWithApproval(sid: nat, i: nat, call: ToolCall, step: Row, wanted: RunRow) returns (ok: bool)
      requires Valid() && sid < |world.sessions|
      requires var s := world.sessions[sid];
               && s.pc == CommitWait(i) && i < |s.pending| && s.pending[i] == call
               && step == NewRow(s, WaitStep(call), Some(call.id), None, 0)
               && wanted == s.local.(cursor := s.local.cursor + 1)
      modifies this
      ensures Valid() && schedule == old(schedule) + [Step(sid, old(world.db.now), Returned(Null))]
      ensures ok <==> !HasApproval(old(world.db.approvals), call.id) && Accepts(FULL, old(world.db.rows), step)
      ensures history == old(history) + [world]
      ensures var d, s := old(world.db), old(world.sessions[sid]);
              world == if ok
                       then World(d.(rows := d.rows + [step], writers := d.writers + [sid],
                                     run := Flush(d.run, s.local, wanted),
                                     approvals := d.approvals + [Approval(call, Verdict.Pending)]),
                                  old(world.sessions)[sid := s.(local := wanted, pc := CommitParked)])
                       else World(d, old(world.sessions)[sid := s.(pc := Stopped)])
    {
      var d, s := world.db, world.sessions[sid];
      ok := !HasApproval(d.approvals, call.id) && Accepts(FULL, d.rows, step);
      if ok {
        WaitRecorded(env, d, s, sid, d.now, Returned(Null), i, call, wanted);
        Transact(sid, d.now, Returned(Null),
                 d.(rows := d.rows + [step], writers := d.writers + [sid], run := Flush(d.run, s.local, wanted),
                    approvals := d.approvals + [Approval(call, Verdict.Pending)]),
                 s.(local := wanted, pc := CommitParked));
      } else {
        WaitRefused(env, d, s, sid, d.now, Returned(Null), i, call);
        Transact(sid, d.now, Returned(Null), d, s.(pc := Stopped));
      }
    }
  }
}
