/** Building schedules: lemmas that follow a run along concrete actions. */
module Paths {
  import opened Values
  import opened Models
  import opened Rebuild
  import opened Protocol
  import opened LedgerInvariant
  import opened Approvals
  import opened CrashTransparency
  import opened Dispatches
  import opened Timed
  import opened Shared

  function Act(sid: nat, now: Time): Action {
    Step(sid, now, Returned(Null))
  }

  /** What else is promised of a schedule: that sessions kept their leases, that no approval was open when the run was
      claimed or read, and that nobody crashed or cancelled and the outside world answered as the oracle does. */
  datatype Manner = Manner(timely: bool, clean: bool, oracle: Option<Oracle>)

  const ANYHOW := Manner(false, false, None)
  const IN_TIME := Manner(true, false, None)
  const CLEAN := Manner(false, true, None)
  const WITH_CARE := Manner(true, true, None)

  predicate InManner(env: Env, how: Manner, w: World, a: Action) {
    && (how.timely ==> Timely(env, w, a))
    && (how.clean ==> CleanRead(w, a) && CleanClaim(env, w, a))
    && (how.oracle.Some? ==> !a.Crash? && !a.Cancel? && Agrees(how.oracle.value, w, a))
  }

  predicate Undisturbed(schedule: seq<Action>) {
    forall i :: 0 <= i < |schedule| ==> !schedule[i].Crash? && !schedule[i].Cancel?
  }

  /** `schedule` leads from `start` to `w` by way of `history`. */
  ghost predicate Witness(env: Env, start: World, schedule: seq<Action>, w: World, how: Manner, history: seq<World>) {
    && IsHistory(env, schedule, history) && history[0] == start && history[|schedule|] == w
    && forall n {:trigger InManner(env, how, history[n], schedule[n])} :: 0 <= n < |schedule| ==>
         InManner(env, how, history[n], schedule[n])
  }

  /** `schedule` leads to `w`. */
  ghost predicate Leads(env: Env, start: World, schedule: seq<Action>, w: World, how: Manner) {
    exists history :: Witness(env, start, schedule, w, how, history)
  }

  lemma LeadsNowhere(env: Env, start: World, how: Manner)
    ensures Leads(env, start, [], start, how)
  {
    assert Witness(env, start, [], start, how, [start]);
  }

  lemma LeadsOn(env: Env, start: World, schedule: seq<Action>, w: World, how: Manner, a: Action)
    requires Leads(env, start, schedule, w, how) && InManner(env, how, w, a)
    ensures Leads(env, start, schedule + [a], Next(env, FULL, w, a), how)
  {
    var history :| Witness(env, start, schedule, w, how, history);
    var w' := Next(env, FULL, w, a);
    assert Witness(env, start, schedule + [a], w', how, history + [w']);
  }

  /** One action more. */
  lemma Goes(env: Env, start: World, schedule: seq<Action>, w: World, how: Manner, a: Action)
    returns (w': World, schedule': seq<Action>)
    requires Leads(env, start, schedule, w, how) && InManner(env, how, w, a)
    ensures w' == Next(env, FULL, w, a) && schedule' == schedule + [a] && Leads(env, start, schedule', w', how)
  {
    LeadsOn(env, start, schedule, w, how, a);
    w', schedule' := Next(env, FULL, w, a), schedule + [a];
  }

  /** Where a schedule leads is where its run ends. */
  lemma LeadsIsRun(env: Env, start: World, schedule: seq<Action>, w: World, how: Manner)
    requires Leads(env, start, schedule, w, how)
    ensures Run(env, FULL, start, schedule) == w
    ensures how.timely ==> AllTimely(env, start, schedule)
    ensures how.clean ==> CleanReads(env, start, schedule) && AllCleanClaims(env, start, schedule)
    ensures how.oracle.Some? ==> Undisturbed(schedule) && AgreesAll(env, how.oracle.value, start, schedule)
  {
    var history :| Witness(env, start, schedule, w, how, history);
    HistoryIsRun(env, schedule, history, |schedule|);
    assert schedule[..|schedule|] == schedule;
    MannerUpTo(env, start, schedule, w, how, history, |schedule|);
    if how.timely {
      TimelyManner(env, start, schedule, how);
    }
    if how.clean {
      CleanManner(env, start, schedule, how);
    }
    if how.oracle.Some? {
      UndisturbedManner(env, start, schedule, how);
      AgreeingManner(env, start, schedule, how);
    }
  }

  predicate AllInManner(env: Env, start: World, schedule: seq<Action>, how: Manner) {
    schedule == [] ||
    (AllInManner(env, start, schedule[..|schedule| - 1], how)
     && InManner(env, how, Run(env, FULL, start, schedule[..|schedule| - 1]), schedule[|schedule| - 1]))
  }

  lemma {:induction false} MannerUpTo(env: Env, start: World, schedule: seq<Action>, w: World, how: Manner,
                                      history: seq<World>, n: nat)
    requires Witness(env, start, schedule, w, how, history) && n <= |schedule|
    ensures AllInManner(env, start, schedule[..n], how)
  {
    if n > 0 {
      MannerUpTo(env, start, schedule, w, how, history, n - 1);
      HistoryIsRun(env, schedule, history, n - 1);
      assert schedule[..n][..n - 1] == schedule[..n - 1];
      assert InManner(env, how, history[n - 1], schedule[n - 1]);
    }
  }

  lemma {:induction false} TimelyManner(env: Env, start: World, schedule: seq<Action>, how: Manner)
    requires AllInManner(env, start, schedule, how) && how.timely
    ensures AllTimely(env, start, schedule)
  {
    if schedule != [] {
      TimelyManner(env, start, schedule[..|schedule| - 1], how);
    }
  }

  lemma {:induction false} CleanManner(env: Env, start: World, schedule: seq<Action>, how: Manner)
    requires AllInManner(env, start, schedule, how) && how.clean
    ensures CleanReads(env, start, schedule) && AllCleanClaims(env, start, schedule)
  {
    if schedule != [] {
      CleanManner(env, start, schedule[..|schedule| - 1], how);
    }
  }

  lemma {:induction false} UndisturbedManner(env: Env, start: World, schedule: seq<Action>, how: Manner)
    requires AllInManner(env, start, schedule, how) && how.oracle.Some?
    ensures Undisturbed(schedule)
  {
    if schedule != [] {
      UndisturbedManner(env, start, schedule[..|schedule| - 1], how);
      assert forall i :: 0 <= i < |schedule| - 1 ==> schedule[i] == schedule[..|schedule| - 1][i];
    }
  }

  lemma {:induction false} AgreeingManner(env: Env, start: World, schedule: seq<Action>, how: Manner)
    requires AllInManner(env, start, schedule, how) && how.oracle.Some?
    ensures AgreesAll(env, how.oracle.value, start, schedule)
  {
    if schedule != [] {
      AgreeingManner(env, start, schedule[..|schedule| - 1], how);
    }
  }

  lemma {:induction false} NoneSeen(job: Job, calls: seq<ToolCall>, seen: set<Key>)
    requires forall c :: c in calls ==> KeyOf(job, c) !in seen
    ensures Unobserved(job, calls, seen) == calls
  {
    if calls != [] {
      assert calls[0] in calls && forall c :: c in calls[1..] ==> c in calls;
      NoneSeen(job, calls[1..], seen);
    }
  }

  /** A ledger of one plan is one a run may be enqueued with, and all its calls are pending. */
  lemma OnePlanOk(job: Job, row: Row)
    requires row.body.PlanStep? && row.seqNo == 1 && row.callId == None && row.key == None
    ensures StartOk(job, [row]) && OrderBySeq([row]) == [row]
    ensures PendingCalls(job, [row]) == row.body.calls && PlanCount([row]) == 1
  {
    FoldAppend(job, [], row);
    StartOkAppend(job, [], row);
    NoneSeen(job, row.body.calls, {});
    assert [] + [row] == [row];
    OrderBySeqIsIdentity([row]);
  }

  /** A worker that has just leased the run, by whatever kind of claim, gets as far as the top of its loop, undisturbed
      and in time. */
  lemma LoopStarts(env: Env, start: World, schedule: seq<Action>, w: World, claim: Action, worker: Worker, how: Manner)
    returns (w': World, schedule': seq<Action>)
    requires Leads(env, start, schedule, w, how) && env.agent.Some? && env.leaseSeconds >= 0
    requires var w1 := if claim.SwapClaim? then UseUp(w, claim.n) else w;
             Next(env, FULL, w, claim) == Lease(env, w1, worker, w.db.now) && (claim.Claim? || claim.SwapClaim?)
    requires how.clean || how.oracle.Some? ==> !AnyOpen(w.db.approvals)
    ensures Leads(env, start, schedule', w', how) && schedule + [claim] <= schedule'
    ensures w'.db == w.db.(run := LeaseTo(w.db.run, worker, w.db.now + env.leaseSeconds).(status := Running),
                           used := w'.db.used)
    ensures w'.db.used == if claim.SwapClaim? then w.db.used + {claim.n} else w.db.used
    ensures w'.sessions == w.sessions + [Session(worker, LoopTop, w'.db.run, [], [], w.db.run.cursor,
                                                 w.db.now + env.leaseSeconds)]
  {
    var w1, s1 := Goes(env, start, schedule, w, how, claim);
    w', schedule' := StartsRunning(env, start, s1, w1, how, worker);
  }

  /** The worker reads the run and writes that it is running. */
  lemma StartsRunning(env: Env, start: World, schedule: seq<Action>, w: World, how: Manner, worker: Worker)
    returns (w': World, schedule': seq<Action>)
    requires Leads(env, start, schedule, w, how) && env.agent.Some? && env.leaseSeconds >= 0 && w.sessions != []
    requires w.sessions[|w.sessions| - 1] == NewSession(worker, w.db.run, w.db.now + env.leaseSeconds)
    requires w.db.run.status == Leased && (how.clean || how.oracle.Some? ==> !AnyOpen(w.db.approvals))
    ensures Leads(env, start, schedule', w', how) && schedule <= schedule'
    ensures w'.db == w.db.(run := w.db.run.(status := Running))
    ensures w'.sessions == w.sessions[|w.sessions| - 1 := w.sessions[|w.sessions| - 1].(pc := LoopTop, local := w'.db.run)]
  {
    var act := Act(|w.sessions| - 1, w.db.now);
    var w1, s1 := Goes(env, start, schedule, w, how, act);
    assert w1 == World(w.db, w.sessions[|w.sessions| - 1 := w.sessions[|w.sessions| - 1].(pc := Loaded)]);
    w', schedule' := Goes(env, start, s1, w1, how, act);
  }

  /** A row-locked claim of a run that is runnable now and has an attempt left. */
  lemma ClaimLeases(env: Env, w: World, worker: Worker)
    requires Runnable(w.db.run, w.db.now) && w.db.run.attempt < env.maxAttempts
    ensures Next(env, FULL, w, Claim(worker, w.db.now)) == Lease(env, w, worker, w.db.now)
  {
  }

  /** From the top of its loop the worker gets to the snapshot. */
  lemma PassStarts(env: Env, start: World, schedule: seq<Action>, w: World, how: Manner)
    returns (w': World, schedule': seq<Action>)
    requires Leads(env, start, schedule, w, how) && env.agent.Some? && GapFree(w.db.rows) && env.leaseSeconds >= 0
    requires w.sessions != [] && !w.db.run.cancel && w.db.run.expiry == Some(w.db.now + env.leaseSeconds)
    requires var s := w.sessions[|w.sessions| - 1];
             s.pc == LoopTop && s.local == w.db.run && s.lease == w.db.now + env.leaseSeconds
    ensures Leads(env, start, schedule', w', how) && schedule <= schedule' && w'.db == w.db
    ensures var pending := PendingCalls(env.job, w.db.rows);
            w'.sessions == w.sessions[|w.sessions| - 1 :=
              w.sessions[|w.sessions| - 1].(steps := w.db.rows, pending := pending,
                                            pc := AfterLoad(env, w.db.rows, pending))]
  {
    var sid := |w.sessions| - 1;
    var act := Act(sid, w.db.now);
    var w1, s1 := Goes(env, start, schedule, w, how, act);
    assert w1 == World(w.db, w.sessions[sid := w.sessions[sid].(pc := CheckCancel)]);
    var w2, s2 := Goes(env, start, s1, w1, how, act);
    assert w2 == World(w.db, w.sessions[sid := w.sessions[sid].(pc := LoadLedger)]);
    LoadIsStep(env, w2.db, w2.sessions[sid], sid, w.db.now, Returned(Null));
    w', schedule' := Goes(env, start, s2, w2, how, act);
  }

  /** The latest worker stands at a call with the run row as it is, in time. */
  ghost predicate AtCall(w: World, i: nat) {
    && w.sessions != []
    && var s := w.sessions[|w.sessions| - 1];
       && s.pc == NextCall(i) && i < |s.pending| && s.local == w.db.run && w.db.now <= s.lease
       && GapFree(w.db.rows) && w.db.run.cursor == |w.db.rows|
  }

  lemma DecideIsStep(env: Env, w: World, sid: nat, i: nat)
    requires sid < |w.sessions| && w.sessions[sid].pc == NextCall(i)
    ensures var s := w.sessions[sid];
            Next(env, FULL, w, Act(sid, w.db.now)) == World(w.db, w.sessions[sid := s.(pc := Decide(env, w.db, s, i))])
  {
  }

  /** Asked to execute a call of a known tool, it commits the intent if there is none yet, and gets to the dispatch. */
  lemma GetsToDispatch(env: Env, start: World, schedule: seq<Action>, w: World, how: Manner, i: nat)
    returns (w': World, schedule': seq<Action>)
    requires Leads(env, start, schedule, w, how) && AtCall(w, i)
    requires var s := w.sessions[|w.sessions| - 1];
             && Decide(env, w.db, s, i) == Execute(env, s.steps, i, s.pending[i]) && s.pending[i].name in env.tools
             && (HasKey(s.steps, Intent(KeyOf(env.job, s.pending[i]))) <==>
                   HasKey(w.db.rows, Intent(KeyOf(env.job, s.pending[i]))))
    ensures Leads(env, start, schedule', w', how) && schedule <= schedule'
    ensures var s := w.sessions[|w.sessions| - 1];
            var key := Intent(KeyOf(env.job, s.pending[i]));
            && w'.db.rows == (if HasKey(w.db.rows, key) then w.db.rows
                              else w.db.rows + [NewRow(s, IntentStep(s.pending[i]), Some(s.pending[i].id), Some(key), 0)])
            && w'.db == w.db.(rows := w'.db.rows, writers := w'.db.writers, run := w.db.run.(cursor := |w'.db.rows|))
            && w'.sessions == w.sessions[|w.sessions| - 1 :=
                                s.(pc := StartDispatch(env, i, env.tools[s.pending[i].name] + 1), local := w'.db.run)]
  {
    var sid := |w.sessions| - 1;
    var s, act := w.sessions[sid], Act(sid, w.db.now);
    w', schedule' := Goes(env, start, schedule, w, how, act);
    DecideIsStep(env, w, sid, i);
    if !HasKey(w.db.rows, Intent(KeyOf(env.job, s.pending[i]))) {
      var w1 := w';
      w', schedule' := Goes(env, start, schedule', w1, how, act);
      IntentIsAccepted(env, w1, sid, i);
    }
  }

  lemma IntentIsAccepted(env: Env, w: World, sid: nat, i: nat)
    requires sid < |w.sessions| && w.sessions[sid].pc == CommitIntent(i) && i < |w.sessions[sid].pending|
    requires GapFree(w.db.rows) && w.db.run.cursor == |w.db.rows| && w.sessions[sid].local == w.db.run
    requires w.sessions[sid].pending[i].name in env.tools
    requires !HasKey(w.db.rows, Intent(KeyOf(env.job, w.sessions[sid].pending[i])))
    ensures var s := w.sessions[sid];
            var key := Intent(KeyOf(env.job, s.pending[i]));
            var run := w.db.run.(cursor := |w.db.rows| + 1);
            Next(env, FULL, w, Act(sid, w.db.now))
            == World(w.db.(rows := w.db.rows + [NewRow(s, IntentStep(s.pending[i]), Some(s.pending[i].id), Some(key), 0)],
                           writers := w.db.writers + [sid], run := run),
                     w.sessions[sid := s.(pc := StartDispatch(env, i, env.tools[s.pending[i].name] + 1), local := run)])
  {
    SeqFreeIsEnd(w.db.rows, w.db.run.cursor);
  }

  /** It dispatches, with whatever outcome. */
  lemma Sends(env: Env, start: World, schedule: seq<Action>, w: World, how: Manner, outcome: Outcome)
    returns (w': World, schedule': seq<Action>)
    requires Leads(env, start, schedule, w, how) && w.sessions != []
    requires var s := w.sessions[|w.sessions| - 1];
             && s.pc.Dispatch? && s.pc.i < |s.pending| && s.pc.left > 0 && w.db.now <= s.lease
             && (how.oracle.Some? ==> outcome == how.oracle.value.tool(s.pending[s.pc.i]))
    ensures Leads(env, start, schedule', w', how) && schedule <= schedule'
    ensures var s := w.sessions[|w.sessions| - 1];
            var call := s.pending[s.pc.i];
            && w'.db == w.db.(log := w.db.log
                                     + [Sent(|w.sessions| - 1, KeyOf(env.job, call), call, outcome, |w.db.rows|)])
            && w'.sessions == w.sessions[|w.sessions| - 1 := s.(pc := AfterDispatch(env, s.pc.i, s.pc.left, outcome))]
  {
    w', schedule' := Goes(env, start, schedule, w, how, Step(|w.sessions| - 1, w.db.now, outcome));
  }

  /** It records a result nobody recorded before. */
  lemma Records(env: Env, start: World, schedule: seq<Action>, w: World, how: Manner)
    returns (w': World, schedule': seq<Action>)
    requires Leads(env, start, schedule, w, how) && w.sessions != []
    requires var s := w.sessions[|w.sessions| - 1];
             && s.pc.CommitObservation? && s.pc.i < |s.pending| && s.local == w.db.run && w.db.now <= s.lease
             && GapFree(w.db.rows) && w.db.run.cursor == |w.db.rows|
             && KeyFree(w.db.rows, Some(KeyOf(env.job, s.pending[s.pc.i])))
    ensures Leads(env, start, schedule', w', how) && schedule <= schedule'
    ensures var s, run := w.sessions[|w.sessions| - 1], w.db.run.(cursor := |w.db.rows| + 1);
            var call := s.pending[s.pc.i];
            var row := NewRow(s, Observation(call.id, call.name, s.pc.result), Some(call.id),
                              Some(KeyOf(env.job, call)), s.pc.cost);
            && w'.db == w.db.(rows := w.db.rows + [row], writers := w.db.writers + [|w.sessions| - 1], run := run)
            && w'.sessions == w.sessions[|w.sessions| - 1 := s.(pc := NextCall(s.pc.i + 1), local := run)]
  {
    SeqFreeIsEnd(w.db.rows, w.db.run.cursor);
    w', schedule' := Goes(env, start, schedule, w, how, Act(|w.sessions| - 1, w.db.now));
  }

  /** At a guarded call nobody was asked about, it asks. */
  lemma Asks(env: Env, start: World, schedule: seq<Action>, w: World, how: Manner, i: nat)
    returns (w': World, schedule': seq<Action>)
    requires Leads(env, start, schedule, w, how) && AtCall(w, i)
    requires var s := w.sessions[|w.sessions| - 1];
             && s.pending == PendingCalls(env.job, s.steps) && Guarded(env, s.pending[i])
             && !HasApproval(w.db.approvals, s.pending[i].id)
    ensures Leads(env, start, schedule', w', how) && schedule <= schedule'
    ensures var s, run := w.sessions[|w.sessions| - 1], w.db.run.(cursor := |w.db.rows| + 1);
            && w'.db == w.db.(rows := w.db.rows + [NewRow(s, WaitStep(s.pending[i]), Some(s.pending[i].id), None, 0)],
                              writers := w.db.writers + [|w.sessions| - 1], run := run,
                              approvals := w.db.approvals + [Approval(s.pending[i], Verdict.Pending)])
            && w'.sessions == w.sessions[|w.sessions| - 1 := s.(pc := CommitParked, local := run)]
  {
    var sid := |w.sessions| - 1;
    var s, act := w.sessions[sid], Act(sid, w.db.now);
    DecideActs(env, w.db, s, i);
    var w1, s1 := Goes(env, start, schedule, w, how, act);
    DecideIsStep(env, w, sid, i);
    w', schedule' := Goes(env, start, s1, w1, how, act);
    WaitIsAccepted(env, w1, sid, i);
  }

  lemma WaitIsAccepted(env: Env, w: World, sid: nat, i: nat)
    requires sid < |w.sessions| && w.sessions[sid].pc == CommitWait(i) && i < |w.sessions[sid].pending|
    requires GapFree(w.db.rows) && w.db.run.cursor == |w.db.rows| && w.sessions[sid].local == w.db.run
    requires !HasApproval(w.db.approvals, w.sessions[sid].pending[i].id)
    ensures var s, run := w.sessions[sid], w.db.run.(cursor := |w.db.rows| + 1);
            Next(env, FULL, w, Act(sid, w.db.now))
            == World(w.db.(rows := w.db.rows + [NewRow(s, WaitStep(s.pending[i]), Some(s.pending[i].id), None, 0)],
                           writers := w.db.writers + [sid], run := run,
                           approvals := w.db.approvals + [Approval(s.pending[i], Verdict.Pending)]),
                     w.sessions[sid := s.(pc := CommitParked, local := run)])
  {
    SeqFreeIsEnd(w.db.rows, w.db.run.cursor);
    WaitRecorded(env, w.db, w.sessions[sid], sid, w.db.now, Returned(Null), i, w.sessions[sid].pending[i],
                 w.db.run.(cursor := |w.db.rows| + 1));
  }

  /** It parks the run, and a human decides. */
  lemma IsDecidedThen(env: Env, start: World, schedule: seq<Action>, w: World, how: Manner, call: ToolCall, approve: bool)
    returns (w': World, schedule': seq<Action>)
    requires Leads(env, start, schedule, w, how) && w.sessions != [] && w.sessions[|w.sessions| - 1].pc == CommitParked
    requires w.sessions[|w.sessions| - 1].local == w.db.run && w.db.now <= w.sessions[|w.sessions| - 1].lease
    requires w.db.run.status == Running && w.db.approvals != []
    requires w.db.approvals[|w.db.approvals| - 1] == Approval(call, Verdict.Pending)
    requires how.oracle.Some? ==> approve == how.oracle.value.approves(call.id)
    ensures Leads(env, start, schedule', w', how) && schedule <= schedule' && |w'.sessions| == |w.sessions|
    ensures w'.db == w.db.(run := Released(w.db.run, Queued),
                           approvals := w.db.approvals[|w.db.approvals| - 1 :=
                                          Approval(call, if approve then Approved else Rejected)])
  {
    var w1, s1 := Goes(env, start, schedule, w, how, Act(|w.sessions| - 1, w.db.now));
    assert w1.db == w.db.(run := Released(w.db.run, ApprovalWait));
    w', schedule' := Goes(env, start, s1, w1, how, Resolve(approve));
  }
}
