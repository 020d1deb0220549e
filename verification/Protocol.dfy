/** The durable execution engine as a transition system.

    One run's rows of the database are shared by any number of worker sessions. A session is one claim followed
    by one drive of the run; it moves one transaction, or one tool dispatch, at a time, and anything may happen in
    between. A schedule is a finite sequence of actions; every schedule is a possible history. */
module Protocol {
  import opened Values
  import opened Models
  import opened Rebuild

  // ---------------------------------------------------------------------------
  // The developer's code and the settings
  // ---------------------------------------------------------------------------

  datatype ModelResult = Planned(plan: Plan) | Raised(message: string)

  datatype Decision = Allow | Deny | RequireApproval | Invalid(message: string)

  /** `agent` is the registered model function, `tools` maps a registered tool to its retries, `toCents` is what
      the cost field of a tool result converts to. */
  datatype Env = Env(
    job: Job,
    agent: Option<State -> ModelResult>,
    policy: ToolCall -> Decision,
    tools: map<string, int>,
    toCents: Json -> int,
    leaseSeconds: int,
    maxSteps: int,
    maxAttempts: int)

  /** How one dispatch of a tool ends: with a result, with a tool error, or with any other exception, such as a
      subprocess that could not be started or a cost that is no integer. A tool that fails may or may not have done its
      work first. */
  datatype Outcome =
    | Returned(result: Json)
    | Threw(detail: string, effect: bool)
    | Broke(message: string, effect: bool)

  function CostOf(env: Env, result: Json): int {
    if result.Obj? && "_cost_cents" in result.fields then env.toCents(result.fields["_cost_cents"]) else 0
  }

  /** `additional` cents on top of `used` would break the cap. */
  predicate WouldExceed(cap: Option<int>, used: int, additional: int) {
    cap.Some? && used + (if additional > 0 then additional else 0) > cap.value
  }

  // ---------------------------------------------------------------------------
  // State
  // ---------------------------------------------------------------------------

  /** Where a session is. Constructors that carry an index point into the session's pending calls. */
  datatype Pc =
    | Claimed
    | Loaded
    | LoopTop
    | CheckCancel
    | LoadLedger
    | CommitPlan(plan: Plan)
    | CommitFinal(plan: Plan)
    | CommitSucceeded(output: Json)
    | NextCall(i: nat)
    | CommitObservation(i: nat, result: Json, cost: int)
    | CommitWait(i: nat)
    | CommitParked
    | CommitIntent(i: nat)
    | Dispatch(i: nat, left: nat)
    | CommitError(class_: ErrorClass, detail: string)
    | CommitFailed(class_: ErrorClass, detail: string)
    | Stopped

  /** `local` is the session's in-memory copy of the run row, `steps` and `pending` the ledger snapshot of the
      current pass. `base` (the cursor it loaded) and `lease` (the last expiry it wrote) are history. */
  datatype Session = Session(
    worker: Worker,
    pc: Pc,
    local: RunRow,
    steps: seq<Row>,
    pending: seq<ToolCall>,
    base: nat,
    lease: Time)

  /** One dispatch of a tool: by which session, under which key, and how long the ledger was. */
  datatype Sent = Sent(sid: nat, key: Key, call: ToolCall, outcome: Outcome, at: nat)

  /** What a claimer without row locks holds between its read and its update: the run as it was read, and the clock
      reading it was found runnable at. */
  datatype Candidate = Candidate(row: RunRow, asOf: Time)

  /** The database, the clock, the candidates claimers read and which of them an update was made with; as history, which
      sessions wrote the rows added since the run was enqueued and what was dispatched. */
  datatype Db = Db(
    now: Time,
    run: RunRow,
    rows: seq<Row>,
    writers: seq<nat>,
    approvals: seq<Approval>,
    log: seq<Sent>,
    looked: seq<Candidate>,
    used: set<nat>)

  datatype World = World(db: Db, sessions: seq<Session>)

  datatype Action =
    | Tick(delta: nat)
    | Claim(worker: Worker, asOf: Time)
    | Look(asOf: Time)
    | SwapClaim(worker: Worker, n: nat)
    | SwapBury(n: nat)
    | Step(sid: nat, asOf: Time, outcome: Outcome)
    | Crash(sid: nat)
    | Cancel
    | Resolve(approve: bool)

  // ---------------------------------------------------------------------------
  // One session
  // ---------------------------------------------------------------------------

  /** The object mapper writes back only the attributes that differ from the copy it loaded. */
  function Flush(row: RunRow, loaded: RunRow, wanted: RunRow): RunRow {
    RunRow(
      if wanted.status != loaded.status then wanted.status else row.status,
      if wanted.cursor != loaded.cursor then wanted.cursor else row.cursor,
      if wanted.owner != loaded.owner then wanted.owner else row.owner,
      if wanted.expiry != loaded.expiry then wanted.expiry else row.expiry,
      if wanted.attempt != loaded.attempt then wanted.attempt else row.attempt,
      if wanted.cancel != loaded.cancel then wanted.cancel else row.cancel,
      if wanted.error != loaded.error then wanted.error else row.error,
      if wanted.output != loaded.output then wanted.output else row.output)
  }

  function NewRow(s: Session, body: Body, callId: Option<string>, key: Option<Key>, cost: int): Row {
    Row(s.local.cursor + 1, body, callId, key, cost, s.worker, s.local.attempt)
  }

  /** Insert one step and advance the cursor, in one transaction. A rejected insert rolls back and ends the
      session: its handler cannot commit on a failed transaction. */
  function CommitStep(schema: Schema, db: Db, s: Session, sid: nat, row: Row, next: Pc): (Db, Session)
    requires row.seqNo == s.local.cursor + 1
  {
    if Accepts(schema, db.rows, row) then
      var wanted := s.local.(cursor := s.local.cursor + 1);
      (db.(rows := db.rows + [row], writers := db.writers + [sid], run := Flush(db.run, s.local, wanted)),
       s.(local := wanted, pc := next))
    else
      (db, s.(pc := Stopped))
  }

  /** Write the run row only. */
  function CommitRun(db: Db, s: Session, wanted: RunRow, next: Pc): (Db, Session) {
    (db.(run := Flush(db.run, s.local, wanted)), s.(local := wanted, pc := next))
  }

  function Released(row: RunRow, status: Status): RunRow {
    row.(status := status, owner := None, expiry := None)
  }

  /** After the ledger snapshot: guard against runaways, execute what is pending, or ask the model. */
  function AfterLoad(env: Env, steps: seq<Row>, pending: seq<ToolCall>): Pc
    requires env.agent.Some?
  {
    if PlanCount(steps) >= env.maxSteps then CommitError(Infra, MAX_STEPS)
    else if pending != [] then NextCall(0)
    else match env.agent.value(StateOf(env.job, steps))
      case Raised(message) => CommitError(Infra, EngineError(message))
      case Planned(plan) =>
        if WouldExceed(env.job.cap, TotalCost(steps), plan.cost)
        then CommitError(ErrorClass.Budget, OVER_BUDGET)
        else CommitPlan(plan)
  }

  predicate HasObservation(steps: seq<Row>, key: Key) {
    exists i :: 0 <= i < |steps| && steps[i].body.Observation? && steps[i].key == Some(key)
  }

  predicate HasKey(steps: seq<Row>, key: Key) {
    exists i :: 0 <= i < |steps| && steps[i].key == Some(key)
  }

  /** Dispatch with the tool's retries; with no attempt at all there is nothing to wait for. */
  function StartDispatch(env: Env, i: nat, attempts: int): Pc {
    if attempts > 0 then Dispatch(i, attempts) else CommitObservation(i, Null, CostOf(env, Null))
  }

  function Execute(env: Env, steps: seq<Row>, i: nat, call: ToolCall): Pc {
    if call.name !in env.tools then CommitObservation(i, UNKNOWN_TOOL, 0)
    else if HasKey(steps, Intent(KeyOf(env.job, call))) then StartDispatch(env, i, env.tools[call.name] + 1)
    else CommitIntent(i)
  }

  /** What to do about the next pending call. */
  function Decide(env: Env, db: Db, s: Session, i: nat): Pc {
    if i >= |s.pending| then LoopTop
    else
      var call := s.pending[i];
      if HasObservation(s.steps, KeyOf(env.job, call)) then NextCall(i + 1)
      else match env.policy(call)
        case Invalid(message) => CommitError(Infra, EngineError(message))
        case Deny => CommitObservation(i, POLICY_DENIED, 0)
        case Allow => Execute(env, s.steps, i, call)
        case RequireApproval =>
          match FindApproval(db.approvals, call.id)
          case None => CommitWait(i)
          case Some(Rejected) => CommitObservation(i, REJECTED, 0)
          case Some(_) => Execute(env, s.steps, i, call)
  }

  function AfterDispatch(env: Env, i: nat, left: nat, outcome: Outcome): Pc
    requires left > 0
  {
    match outcome
    case Returned(result) => CommitObservation(i, result, CostOf(env, result))
    case Threw(detail, _) =>
      if left > 1 then Dispatch(i, left - 1) else CommitObservation(i, ToolErrorResult(detail), 0)
    case Broke(message, _) => CommitError(Infra, EngineError(message))
  }

  /** The transaction, or the dispatch, a session performs next. `asOf` is the clock reading it uses, `outcome`
      how its dispatch ends. */
  function StepSession(env: Env, schema: Schema, db: Db, s: Session, sid: nat, asOf: Time, outcome: Outcome)
    : (Db, Session)
  {
    match s.pc
    case Claimed => (db, s.(local := db.run, base := db.run.cursor, pc := Loaded))
    case Loaded =>
      if env.agent.None?
      then (db, s.(pc := CommitError(Infra, UnknownAgent(env.job.agentRef))))
      else CommitRun(db, s, s.local.(status := Running), LoopTop)
    case LoopTop =>
      var expiry := asOf + env.leaseSeconds;
      if db.run.owner == s.local.owner
      then (db.(run := db.run.(expiry := Some(expiry))),
            s.(local := s.local.(expiry := Some(expiry)), lease := expiry, pc := CheckCancel))
      else (db, s.(pc := Stopped))
    case CheckCancel =>
      (db, s.(local := s.local.(cancel := db.run.cancel),
              pc := if db.run.cancel then CommitError(Cancelled, CANCELLED) else LoadLedger))
    case LoadLedger =>
      if env.agent.None? then (db, s.(pc := Stopped))
      else
        var steps := OrderBySeq(db.rows);
        var pending := PendingCalls(env.job, steps);
        (db, s.(steps := steps, pending := pending, pc := AfterLoad(env, steps, pending)))
    case CommitPlan(plan) =>
      CommitStep(schema, db, s, sid, NewRow(s, PlanStep(plan.content, plan.calls), None, None, plan.cost),
                 if plan.IsFinal() then CommitFinal(plan) else LoopTop)
    case CommitFinal(plan) =>
      CommitStep(schema, db, s, sid, NewRow(s, FinalStep(plan.output), None, None, 0), CommitSucceeded(plan.output))
    case CommitSucceeded(output) =>
      CommitRun(db, s, Released(s.local, Succeeded).(output := Some(WrapOutput(output))), Stopped)
    case NextCall(i) => (db, s.(pc := Decide(env, db, s, i)))
    case CommitObservation(i, result, cost) =>
      if i >= |s.pending| then (db, s.(pc := Stopped))
      else
        var call := s.pending[i];
        CommitStep(schema, db, s, sid,
                   NewRow(s, Observation(call.id, call.name, result), Some(call.id), Some(KeyOf(env.job, call)), cost),
                   NextCall(i + 1))
    case CommitWait(i) =>
      if i >= |s.pending| || HasApproval(db.approvals, s.pending[i].id) then (db, s.(pc := Stopped))
      else
        var call := s.pending[i];
        var (db', s') := CommitStep(schema, db, s, sid, NewRow(s, WaitStep(call), Some(call.id), None, 0), CommitParked);
        (if s'.pc == CommitParked then db'.(approvals := db.approvals + [Approval(call, Verdict.Pending)]) else db', s')
    case CommitParked => CommitRun(db, s, Released(s.local, ApprovalWait), Stopped)
    case CommitIntent(i) =>
      if i >= |s.pending| || s.pending[i].name !in env.tools then (db, s.(pc := Stopped))
      else
        var call := s.pending[i];
        CommitStep(schema, db, s, sid,
                   NewRow(s, IntentStep(call), Some(call.id), Some(Intent(KeyOf(env.job, call))), 0),
                   StartDispatch(env, i, env.tools[call.name] + 1))
    case Dispatch(i, left) =>
      if i >= |s.pending| || left == 0 then (db, s.(pc := Stopped))
      else
        var call := s.pending[i];
        (db.(log := db.log + [Sent(sid, KeyOf(env.job, call), call, outcome, |db.rows|)]),
         s.(pc := AfterDispatch(env, i, left, outcome)))
    case CommitError(class_, detail) =>
      CommitStep(schema, db, s, sid, NewRow(s, ErrorStep(class_, detail), None, None, 0), CommitFailed(class_, detail))
    case CommitFailed(class_, detail) =>
      CommitRun(db, s,
                Released(s.local, Failed).(error := Some(class_), output := Some(ErrorResult(detail))), Stopped)
    case Stopped => (db, s)
  }

  // ---------------------------------------------------------------------------
  // Claims, API handlers, schedules
  // ---------------------------------------------------------------------------

  /** Queued, or leased to a worker whose lease ran out before `asOf`. */
  predicate Runnable(run: RunRow, asOf: Time) {
    || run.status == Queued
    || ((run.status == Leased || run.status == Running) && run.expiry.Some? && run.expiry.value < asOf)
  }

  function LeaseTo(run: RunRow, worker: Worker, expiry: Time): RunRow {
    run.(status := Leased, owner := Some(worker), expiry := Some(expiry), attempt := run.attempt + 1)
  }

  function Bury(run: RunRow): RunRow {
    Released(run, Dead).(error := Some(Infra))
  }

  /** What a claimer holds was runnable when it was read, and no update is made with a candidate nobody read. */
  predicate CandidatesOk(db: Db) {
    && (forall n :: 0 <= n < |db.looked| ==>
          db.looked[n].asOf <= db.now && Runnable(db.looked[n].row, db.looked[n].asOf))
    && forall n :: n in db.used ==> n < |db.looked|
  }

  /** A claimer still holds candidate `n`: it made no update with it yet. */
  predicate Held(db: Db, n: nat) {
    n < |db.looked| && n !in db.used
  }

  /** The guard of the claiming update: status and lease expiry are what the candidate had. */
  predicate Unchanged(candidate: RunRow, run: RunRow) {
    run.status == candidate.status && run.expiry == candidate.expiry
  }

  /** The update of the claimer with candidate `n` finds a row. */
  predicate SwapWins(env: Env, db: Db, n: nat) {
    Held(db, n) && db.looked[n].row.attempt < env.maxAttempts && Unchanged(db.looked[n].row, db.run)
  }

  /** Its update to bury the run does: here the guard is the status alone. */
  predicate SwapBuries(env: Env, db: Db, n: nat) {
    Held(db, n) && db.looked[n].row.attempt >= env.maxAttempts && db.run.status == db.looked[n].row.status
  }

  /** Whether or not it finds a row, an update uses its candidate up. */
  function UseUp(w: World, n: nat): World {
    w.(db := w.db.(used := w.db.used + {n}))
  }

  /** A session that has a lease and has not read the run yet. */
  function NewSession(worker: Worker, run: RunRow, lease: Time): Session {
    Session(worker, Claimed, run, [], [], run.cursor, lease)
  }

  function Lease(env: Env, w: World, worker: Worker, asOf: Time): World {
    var expiry := asOf + env.leaseSeconds;
    var run := LeaseTo(w.db.run, worker, expiry);
    World(w.db.(run := run), w.sessions + [NewSession(worker, run, expiry)])
  }

  /** The last pending approval, newest first. */
  function LastPending(approvals: seq<Approval>): (r: Option<nat>)
    ensures r.Some? ==> r.value < |approvals| && approvals[r.value].verdict == Verdict.Pending
    ensures r.Some? ==> forall i :: r.value < i < |approvals| ==> approvals[i].verdict != Verdict.Pending
    ensures r.None? ==> forall i :: 0 <= i < |approvals| ==> approvals[i].verdict != Verdict.Pending
  {
    if approvals == [] then None
    else if approvals[|approvals| - 1].verdict == Verdict.Pending then Some(|approvals| - 1)
    else LastPending(approvals[..|approvals| - 1])
  }

  function CancelRun(run: RunRow): RunRow {
    if Terminal(run.status) then run
    else if run.status == Queued then
      run.(cancel := true, status := Failed, error := Some(Cancelled),
           output := Some(ErrorResult(NOT_STARTED)))
    else run.(cancel := true)
  }

  function ResolveApproval(db: Db, verdict: Verdict): Db {
    if db.run.status != ApprovalWait then db
    else match LastPending(db.approvals)
      case None => db
      case Some(i) =>
        db.(approvals := db.approvals[i := db.approvals[i].(verdict := verdict)], run := Released(db.run, Queued))
  }

  /** One atomic action. An action that is not enabled changes nothing. */
  function Next(env: Env, schema: Schema, w: World, a: Action): World {
    match a
    case Tick(delta) => w.(db := w.db.(now := w.db.now + delta))
    case Claim(worker, asOf) =>
      if asOf > w.db.now || !Runnable(w.db.run, asOf) then w
      else if w.db.run.attempt >= env.maxAttempts then w.(db := w.db.(run := Bury(w.db.run)))
      else Lease(env, w, worker, asOf)
    case Look(asOf) =>
      if asOf > w.db.now || !Runnable(w.db.run, asOf) then w
      else w.(db := w.db.(looked := w.db.looked + [Candidate(w.db.run, asOf)]))
    case SwapClaim(worker, n) =>
      if !Held(w.db, n) || w.db.looked[n].row.attempt >= env.maxAttempts then w
      else if SwapWins(env, w.db, n) then Lease(env, UseUp(w, n), worker, w.db.looked[n].asOf)
      else UseUp(w, n)
    case SwapBury(n) =>
      if !Held(w.db, n) || w.db.looked[n].row.attempt < env.maxAttempts then w
      else if SwapBuries(env, w.db, n) then UseUp(w, n).(db := UseUp(w, n).db.(run := Bury(w.db.run)))
      else UseUp(w, n)
    case Step(sid, asOf, outcome) =>
      if sid >= |w.sessions| || asOf > w.db.now then w
      else
        var (db', s') := StepSession(env, schema, w.db, w.sessions[sid], sid, asOf, outcome);
        World(db', w.sessions[sid := s'])
    case Crash(sid) =>
      if sid >= |w.sessions| then w else w.(sessions := w.sessions[sid := w.sessions[sid].(pc := Stopped)])
    case Cancel => w.(db := w.db.(run := CancelRun(w.db.run)))
    case Resolve(approve) => w.(db := ResolveApproval(w.db, if approve then Approved else Rejected))
  }

  /** The world after a schedule. */
  function Run(env: Env, schema: Schema, w: World, schedule: seq<Action>): World {
    if schedule == [] then w
    else Next(env, schema, Run(env, schema, w, schedule[..|schedule| - 1]), schedule[|schedule| - 1])
  }

  /** A run as it is enqueued, with the ledger it starts from: empty, or the copied prefix of a fork. */
  function Enqueued(now: Time, rows: seq<Row>): World {
    World(Db(now, RunRow(Queued, |rows|, None, None, 0, false, None, None), rows, [], [], [], [], {}), [])
  }

  // ---------------------------------------------------------------------------
  // Two kinds of action
  // ---------------------------------------------------------------------------

  predicate Moves(w: World, a: Action) {
    a.Step? && a.sid < |w.sessions| && a.asOf <= w.db.now
  }

  /** The action leases the run to a new session. */
  predicate Leases(env: Env, w: World, a: Action) {
    || (a.Claim? && a.asOf <= w.db.now && Runnable(w.db.run, a.asOf) && w.db.run.attempt < env.maxAttempts)
    || (a.SwapClaim? && SwapWins(env, w.db, a.n))
  }

  /** It does so although the run has no attempt left: the candidate is stale. */
  predicate Overruns(env: Env, w: World, a: Action) {
    Leases(env, w, a) && w.db.run.attempt >= env.maxAttempts
  }

  /** Everything but a session's own step: the ledger and the dispatch log stay, sessions stay or stop, and at most
      one new session appears. */
  predicate Idle(w: World, w': World) {
    && w'.db.rows == w.db.rows && w'.db.writers == w.db.writers && w'.db.log == w.db.log
    && w'.db.run.cursor == w.db.run.cursor && w'.db.run.attempt >= w.db.run.attempt
    && |w.sessions| <= |w'.sessions|
    && (forall k :: 0 <= k < |w.sessions| ==>
          w'.sessions[k] == w.sessions[k] || w'.sessions[k] == w.sessions[k].(pc := Stopped))
    && (forall k :: |w.sessions| <= k < |w'.sessions| ==>
          && w'.sessions[k].pc == Claimed && w'.sessions[k].local == w'.db.run
          && w'.sessions[k].base == w'.db.run.cursor)
  }

  lemma MovesOrIdle(env: Env, schema: Schema, w: World, a: Action)
    ensures Moves(w, a) || Idle(w, Next(env, schema, w, a))
  {
  }
}
