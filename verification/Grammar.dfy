/** What a justified ledger looks like as a whole: decisions, budget and the order of observations. */
module Grammar {
  import opened Values
  import opened Models
  import opened Rebuild
  import opened Protocol
  import opened LedgerInvariant

  /** What a plan on a justified ledger comes from. */
  lemma PlanOnLedger(env: Env, start: nat, ledger: seq<Row>, i: nat) returns (plan: Plan)
    requires LedgerOk(env, start, ledger) && start <= i < |ledger| && ledger[i].body.PlanStep?
    ensures PlannedFrom(env, ledger[..i], plan)
    ensures ledger[i].body == PlanStep(plan.content, plan.calls) && ledger[i].cost == plan.cost
  {
    assert Decided(env, ledger[..i], ledger[i]);
    plan :| PlannedFrom(env, ledger[..i], plan)
         && plan.content == ledger[i].body.content && plan.calls == ledger[i].body.calls && plan.cost == ledger[i].cost;
  }

  /** Optimistic lock: every plan committed at position `i` is the model's answer to the state rebuilt from exactly
      the `i` rows before it, even if its worker had lost the lease. */
  lemma PlanIsAnswerToItsPrefix(env: Env, now: Time, rows: seq<Row>, schedule: seq<Action>, i: nat)
    returns (plan: Plan)
    requires StartOk(env.job, rows)
    requires var ledger := Run(env, FULL, Enqueued(now, rows), schedule).db.rows;
             |rows| <= i < |ledger| && ledger[i].body.PlanStep?
    ensures var ledger := Run(env, FULL, Enqueued(now, rows), schedule).db.rows;
            && env.agent.Some? && env.agent.value(StateOf(env.job, ledger[..i])) == Planned(plan)
            && ledger[i].body == PlanStep(plan.content, plan.calls) && ledger[i].cost == plan.cost
            && PlanCount(ledger[..i]) < env.maxSteps
  {
    LedgerAlwaysOk(env, now, rows, schedule);
    plan := PlanOnLedger(env, |rows|, Run(env, FULL, Enqueued(now, rows), schedule).db.rows, i);
  }

  lemma PlanWithinCap(env: Env, start: nat, ledger: seq<Row>, i: nat)
    requires LedgerOk(env, start, ledger) && start <= i < |ledger| && ledger[i].body.PlanStep? && env.job.cap.Some?
    ensures TotalCost(ledger[..i]) <= env.job.cap.value && TotalCost(ledger[..i + 1]) <= env.job.cap.value
  {
    var plan := PlanOnLedger(env, start, ledger, i);
    FoldAppend(env.job, ledger[..i], ledger[i]);
    assert ledger[..i + 1] == ledger[..i] + [ledger[i]];
  }

  /** With a cap set, neither the costs before a plan nor those up to and including it exceed the cap. */
  predicate CapKept(cap: Option<int>, rows: seq<Row>) {
    cap.Some? ==>
      forall i :: 0 <= i < |rows| && rows[i].body.PlanStep? ==>
        TotalCost(rows[..i]) <= cap.value && TotalCost(rows[..i + 1]) <= cap.value
  }

  lemma LedgerKeepsCap(env: Env, start: nat, ledger: seq<Row>)
    requires LedgerOk(env, start, ledger) && CapKept(env.job.cap, ledger[..start])
    ensures CapKept(env.job.cap, ledger)
  {
    if env.job.cap.Some? {
      forall i | 0 <= i < |ledger| && ledger[i].body.PlanStep?
        ensures TotalCost(ledger[..i]) <= env.job.cap.value && TotalCost(ledger[..i + 1]) <= env.job.cap.value
      {
        if i < start {
          assert ledger[..start][i] == ledger[i];
          assert ledger[..start][..i] == ledger[..i] && ledger[..start][..i + 1] == ledger[..i + 1];
        } else {
          PlanWithinCap(env, start, ledger, i);
        }
      }
    }
  }

  /** Budget: if the cap was kept by the plans the run was enqueued with, none for a fresh run, every schedule keeps it,
      for costs of any sign. An overrun can only come from observations after the last plan. */
  lemma PlansRespectBudget(env: Env, now: Time, rows: seq<Row>, schedule: seq<Action>)
    requires StartOk(env.job, rows) && CapKept(env.job.cap, rows)
    ensures CapKept(env.job.cap, Run(env, FULL, Enqueued(now, rows), schedule).db.rows)
  {
    LedgerAlwaysOk(env, now, rows, schedule);
    LedgerAlwaysOk(env, now, rows, []);
    AppendOnly(env, |rows|, Enqueued(now, rows), schedule);
    assert Run(env, FULL, Enqueued(now, rows), schedule).db.rows[..|rows|] == rows;
    LedgerKeepsCap(env, |rows|, Run(env, FULL, Enqueued(now, rows), schedule).db.rows);
  }

  /** Every plan a run adds is within the cap, whatever it was enqueued with. */
  lemma NewPlansRespectBudget(env: Env, now: Time, rows: seq<Row>, schedule: seq<Action>, i: nat)
    requires StartOk(env.job, rows) && env.job.cap.Some?
    requires var ledger := Run(env, FULL, Enqueued(now, rows), schedule).db.rows;
             |rows| <= i < |ledger| && ledger[i].body.PlanStep?
    ensures var ledger := Run(env, FULL, Enqueued(now, rows), schedule).db.rows;
            TotalCost(ledger[..i]) <= env.job.cap.value && TotalCost(ledger[..i + 1]) <= env.job.cap.value
  {
    LedgerAlwaysOk(env, now, rows, schedule);
    PlanWithinCap(env, |rows|, Run(env, FULL, Enqueued(now, rows), schedule).db.rows, i);
  }

  /** What a row adds to the cost of a run: a plan what the model asked for it, an observation the `_cost_cents` of its
      result if it has one, any other row nothing. */
  lemma RowCosts(env: Env, now: Time, rows: seq<Row>, schedule: seq<Action>, i: nat)
    requires StartOk(env.job, rows)
    requires |rows| <= i < |Run(env, FULL, Enqueued(now, rows), schedule).db.rows|
    ensures var ledger := Run(env, FULL, Enqueued(now, rows), schedule).db.rows;
            TotalCost(ledger[..i + 1]) - TotalCost(ledger[..i]) ==
              match ledger[i].body
              case PlanStep(_, _) =>
                if env.agent.Some? && env.agent.value(StateOf(env.job, ledger[..i])).Planned?
                then env.agent.value(StateOf(env.job, ledger[..i])).plan.cost else 0
              case Observation(_, _, result) =>
                if result.Obj? && "_cost_cents" in result.fields then env.toCents(result.fields["_cost_cents"]) else 0
              case _ => 0
  {
    LedgerAlwaysOk(env, now, rows, schedule);
    var ledger := Run(env, FULL, Enqueued(now, rows), schedule).db.rows;
    assert Shaped(env.job, ledger[..i], ledger[i]) && Decided(env, ledger[..i], ledger[i]);
    FoldAppend(env.job, ledger[..i], ledger[i]);
    assert ledger[..i + 1] == ledger[..i] + [ledger[i]];
  }

  /** A final step follows straight after a plan, recorded when the model meant its plan as the last or asked for no tool,
      and holds the output of that plan. */
  lemma FinalFollowsLastPlan(env: Env, now: Time, rows: seq<Row>, schedule: seq<Action>, i: nat) returns (plan: Plan)
    requires StartOk(env.job, rows)
    requires var ledger := Run(env, FULL, Enqueued(now, rows), schedule).db.rows;
             |rows| <= i < |ledger| && ledger[i].body.FinalStep?
    ensures var ledger := Run(env, FULL, Enqueued(now, rows), schedule).db.rows;
            && i > 0 && ledger[i - 1].body.PlanStep? && ledger[i].body.output == plan.output
            && env.agent.Some? && env.agent.value(StateOf(env.job, ledger[..i - 1])) == Planned(plan)
            && (plan.final || plan.calls == [])
  {
    LedgerAlwaysOk(env, now, rows, schedule);
    var ledger := Run(env, FULL, Enqueued(now, rows), schedule).db.rows;
    assert Shaped(env.job, ledger[..i], ledger[i]) && Decided(env, ledger[..i], ledger[i]);
    plan :| PlannedFrom(env, ledger[..i][..i - 1], plan) && plan.IsFinal() && plan.output == ledger[i].body.output;
    assert ledger[..i][..i - 1] == ledger[..i - 1];
  }

  /** And the other way round: a plan that gets in takes its session to the final step if and only if the model meant it as
      the last or asked for no tool, and back to the top of the loop otherwise. */
  lemma PlanEndsRunIff(env: Env, db: Db, s: Session, sid: nat, asOf: Time, outcome: Outcome)
    requires s.pc.CommitPlan? && StepSession(env, FULL, db, s, sid, asOf, outcome).0.rows != db.rows
    ensures var s' := StepSession(env, FULL, db, s, sid, asOf, outcome).1;
            && (s'.pc == CommitFinal(s.pc.plan) <==> s.pc.plan.final || s.pc.plan.calls == [])
            && (s'.pc == LoopTop <==> !s.pc.plan.final && s.pc.plan.calls != [])
  {
  }

  /** Runaway guard: the plans of a run never outnumber the limit, or those it was enqueued with. */
  lemma {:induction false} PlansBounded(env: Env, start: nat, rows: seq<Row>, n: nat)
    requires LedgerOk(env, start, rows) && start <= n <= |rows|
    ensures PlanCount(rows[..n]) <= PlanCount(rows[..start]) || PlanCount(rows[..n]) <= env.maxSteps
  {
    if n > start {
      PlansBounded(env, start, rows, n - 1);
      FoldAppend(env.job, rows[..n - 1], rows[n - 1]);
      assert rows[..n] == rows[..n - 1] + [rows[n - 1]];
      assert Decided(env, rows[..n - 1], rows[n - 1]);
    }
  }

  // ---------------------------------------------------------------------------
  // Observations between one plan and the next
  // ---------------------------------------------------------------------------

  /** The keys a plan still owes an observation for, in plan order, each once. */
  function Todo(job: Job, calls: seq<ToolCall>, seen: set<Key>): seq<Key> {
    if calls == [] then []
    else
      var key := KeyOf(job, calls[0]);
      if key in seen then Todo(job, calls[1..], seen) else [key] + Todo(job, calls[1..], seen + {key})
  }

  /** The keys of the observations among rows `lo` to `hi`, in ledger order. */
  function ObservationKeys(rows: seq<Row>, lo: nat, hi: nat): seq<Key>
    requires hi <= |rows|
    decreases hi
  {
    if hi <= lo then []
    else
      var last := rows[hi - 1];
      ObservationKeys(rows, lo, hi - 1) + if last.body.Observation? && last.key.Some? then [last.key.value] else []
  }

  lemma {:induction false} TodoSkipsSeen(job: Job, calls: seq<ToolCall>, seen: set<Key>, key: Key)
    requires Unobserved(job, calls, seen) != [] && key == KeyOf(job, Unobserved(job, calls, seen)[0])
    ensures Todo(job, calls, seen) == [key] + Todo(job, calls, seen + {key})
  {
    if KeyOf(job, calls[0]) in seen {
      TodoSkipsSeen(job, calls[1..], seen, key);
    }
  }

  lemma {:induction false} TodoEmpty(job: Job, calls: seq<ToolCall>, seen: set<Key>)
    ensures Todo(job, calls, seen) == [] <==> Unobserved(job, calls, seen) == []
  {
    if calls != [] {
      TodoEmpty(job, calls[1..], seen);
    }
  }

  predicate NoPlanOrFinal(rows: seq<Row>, lo: nat, hi: nat)
    requires hi <= |rows|
  {
    forall i :: lo <= i < hi ==> !rows[i].body.PlanStep? && !rows[i].body.FinalStep?
  }

  /** One row after a plan pays off the first key that is owed, or none. */
  lemma RowPaysFirstOwed(job: Job, before: seq<Row>, row: Row)
    requires Shaped(job, before, row) && !row.body.PlanStep? && !row.body.FinalStep?
    ensures LastCalls(before + [row]) == LastCalls(before)
    ensures row.body.Observation? ==>
              && row.key.Some?
              && Todo(job, LastCalls(before), Observed(before))
              == [row.key.value] + Todo(job, LastCalls(before), Observed(before + [row]))
    ensures !row.body.Observation? ==> Observed(before + [row]) == Observed(before)
  {
    FoldAppend(job, before, row);
    if row.body.Observation? {
      TodoSkipsSeen(job, LastCalls(before), Observed(before), row.key.value);
    }
  }

  /** One more row keeps the balance of what was observed and what is owed. */
  lemma BalanceKept(job: Job, rows: seq<Row>, p: nat, m: nat, calls: seq<ToolCall>, owed: seq<Key>)
    requires p < m - 1 && m <= |rows| && Shaped(job, rows[..m - 1], rows[m - 1])
    requires !rows[m - 1].body.PlanStep? && !rows[m - 1].body.FinalStep? && LastCalls(rows[..m - 1]) == calls
    requires ObservationKeys(rows, p + 1, m - 1) + Todo(job, calls, Observed(rows[..m - 1])) == owed
    ensures LastCalls(rows[..m]) == calls
    ensures ObservationKeys(rows, p + 1, m) + Todo(job, calls, Observed(rows[..m])) == owed
  {
    assert rows[..m] == rows[..m - 1] + [rows[m - 1]];
    RowPaysFirstOwed(job, rows[..m - 1], rows[m - 1]);
    if rows[m - 1].body.Observation? {
      var key, todo := rows[m - 1].key.value, Todo(job, calls, Observed(rows[..m]));
      assert ObservationKeys(rows, p + 1, m - 1) + ([key] + todo) == (ObservationKeys(rows, p + 1, m - 1) + [key]) + todo;
    }
  }

  /** Between a plan at `p` and any later point `m` with no plan or final step in between, the observations so far,
      followed by what is still owed, are exactly the calls of the plan that were not observed before it: one each,
      in plan order. */
  lemma {:induction false} ObservationsFollowPlan(env: Env, start: nat, rows: seq<Row>, p: nat, m: nat)
    requires LedgerOk(env, start, rows) && p < m <= |rows|
    requires rows[p].body.PlanStep? && NoPlanOrFinal(rows, p + 1, m)
    ensures LastCalls(rows[..m]) == rows[p].body.calls
    ensures ObservationKeys(rows, p + 1, m) + Todo(env.job, rows[p].body.calls, Observed(rows[..m]))
         == Todo(env.job, rows[p].body.calls, Observed(rows[..p]))
  {
    if m == p + 1 {
      assert rows[..m] == rows[..p] + [rows[p]];
      FoldAppend(env.job, rows[..p], rows[p]);
    } else {
      ObservationsFollowPlan(env, start, rows, p, m - 1);
      assert Shaped(env.job, rows[..m - 1], rows[m - 1]);
      BalanceKept(env.job, rows, p, m, rows[p].body.calls, Todo(env.job, rows[p].body.calls, Observed(rows[..p])));
    }
  }

  /** The grammar of a run: between one plan and the next (no final step between them) stand exactly the calls of
      the first that were not observed before, one each, in plan order; none is missing. */
  lemma NextPlanWaitsForAll(env: Env, now: Time, rows: seq<Row>, schedule: seq<Action>, p: nat, q: nat)
    requires StartOk(env.job, rows)
    requires var ledger := Run(env, FULL, Enqueued(now, rows), schedule).db.rows;
             && p < q < |ledger| && ledger[p].body.PlanStep? && ledger[q].body.PlanStep?
             && NoPlanOrFinal(ledger, p + 1, q)
    ensures var ledger := Run(env, FULL, Enqueued(now, rows), schedule).db.rows;
            ObservationKeys(ledger, p + 1, q) == Todo(env.job, ledger[p].body.calls, Observed(ledger[..p]))
  {
    LedgerAlwaysOk(env, now, rows, schedule);
    var ledger := Run(env, FULL, Enqueued(now, rows), schedule).db.rows;
    ObservationsFollowPlan(env, |rows|, ledger, p, q);
    assert Shaped(env.job, ledger[..q], ledger[q]);
    TodoEmpty(env.job, ledger[p].body.calls, Observed(ledger[..q]));
  }
}
