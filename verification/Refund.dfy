/** The refund demo, end to end: a bot that looks up an order, refunds it and mails the customer, and a store of side
    effects that honours idempotency keys. However the worker crashes, stalls or is overtaken, the customer is refunded
    at most once, and exactly once when the run gets to its answer without the refund tool failing. */
module Refund {
  import opened Values
  import opened Models
  import opened Rebuild
  import opened Protocol
  import opened LedgerInvariant
  import opened Dispatches
  import opened Provenance
  import opened Timed

  // ---------------------------------------------------------------------------
  // The store of side effects
  // ---------------------------------------------------------------------------

  datatype Effect = Effect(tool: string, payload: Json)

  /** Record once: a key that is there stays as it is. */
  function Once(effects: map<Key, Effect>, key: Key, effect: Effect): map<Key, Effect> {
    if key in effects then effects else effects[key := effect]
  }

  class SideEffects {
    var effects: map<Key, Effect>
    var dispatches: nat

    constructor ()
      ensures effects == map[] && dispatches == 0
    {
      effects, dispatches := map[], 0;
    }

    method RecordSideEffect(key: Key, tool: string, payload: Json) returns (first: bool)
      modifies this`effects
      ensures first <==> key !in old(effects)
      ensures effects == Once(old(effects), key, Effect(tool, payload))
      ensures effects == if first then old(effects)[key := Effect(tool, payload)] else old(effects)
    {
      if key in effects {
        return false;
      }
      effects := effects[key := Effect(tool, payload)];
      return true;
    }

    /** The refund tool. `text` renders a key. */
    method IssueRefund(key: Key, text: Key -> string, orderId: string, cents: int) returns (result: Json)
      modifies this
      ensures effects == Once(old(effects), key,
                              Effect(ISSUE_REFUND, Obj(map["order_id" := Str(orderId), "cents" := Num(cents)])))
      ensures dispatches == old(dispatches) + 1
      ensures result.Obj? && result.fields.Keys == {"refunded", "order_id", "cents", "deduped", "idempotency_key"}
      ensures result.fields["deduped"] == Bool(key in old(effects)) && result.fields["refunded"] == Bool(true)
      ensures result.fields["order_id"] == Str(orderId) && result.fields["cents"] == Num(cents)
      ensures result.fields["idempotency_key"] == Str(text(key))
    {
      dispatches := dispatches + 1;
      var firstTime := RecordSideEffect(key, ISSUE_REFUND, Obj(map["order_id" := Str(orderId), "cents" := Num(cents)]));
      result := Obj(map["refunded" := Bool(true), "order_id" := Str(orderId), "cents" := Num(cents),
                        "deduped" := Bool(!firstTime), "idempotency_key" := Str(text(key))]);
    }
  }

  // ---------------------------------------------------------------------------
  // The bot
  // ---------------------------------------------------------------------------

  const ISSUE_REFUND := "issue_refund"

  predicate Answered(messages: seq<Message>, id: string) {
    exists i :: 0 <= i < |messages| && messages[i].Tool? && messages[i].callId == Some(id)
  }

  /** The order to refund; `text` renders a JSON value as a string. */
  function OrderId(text: Json -> string, input: map<string, Json>): string {
    if "order_id" in input then text(input["order_id"]) else "order-42"
  }

  function LookupCall(orderId: string): ToolCall {
    ToolCall("c1", "lookup_order", map["order_id" := Str(orderId)])
  }

  function RefundCall(orderId: string): ToolCall {
    ToolCall("c2", ISSUE_REFUND, map["order_id" := Str(orderId), "cents" := Num(500)])
  }

  function EmailCall(): ToolCall {
    ToolCall("c3", "email_customer",
             map["to" := Str("ada@example.com"), "message" := Str("Your refund is processed.")])
  }

  function RefundBot(text: Json -> string, state: State): ModelResult {
    if !state.input.Obj? then Raised("input has no attribute 'get'")
    else
      var orderId := OrderId(text, state.input.fields);
      if !Answered(state.messages, "c1") then Planned(Plan("look up the order", [LookupCall(orderId)], false, Null, 1))
      else if !Answered(state.messages, "c2") then Planned(Plan("issue the refund", [RefundCall(orderId)], false, Null, 1))
      else if !Answered(state.messages, "c3") then Planned(Plan("email the customer", [EmailCall()], false, Null, 1))
      else Planned(Plan("", [], true, Obj(map["status" := Str("refunded"), "order_id" := Str(orderId)]), 1))
  }

  /** The demo app under a policy that allows everything. */
  ghost predicate IsDemo(env: Env, text: Json -> string) {
    && env.agent.Some? && (forall state :: env.agent.value(state) == RefundBot(text, state))
    && (forall call :: env.policy(call) == Allow)
    && env.tools == map["lookup_order" := 0, ISSUE_REFUND := 1, "email_customer" := 0]
  }

  // ---------------------------------------------------------------------------
  // What the dispatches did to the store
  // ---------------------------------------------------------------------------

  /** A refund dispatch that did its work: it returned, or failed only after recording. */
  predicate Refunds(e: Sent) {
    e.call.name == ISSUE_REFUND && (e.outcome.Returned? || e.outcome.effect)
  }

  /** The store after these dispatches, starting from what other runs left in it. */
  function EffectsOf(before: map<Key, Effect>, log: seq<Sent>): map<Key, Effect> {
    if log == [] then before
    else
      var e := log[|log| - 1];
      var effects := EffectsOf(before, log[..|log| - 1]);
      if Refunds(e) then Once(effects, e.key, Effect(ISSUE_REFUND, Obj(e.call.arguments))) else effects
  }

  function RefundKeys(before: map<Key, Effect>, effects: map<Key, Effect>): set<Key> {
    set key | key in effects && key !in before && effects[key].tool == ISSUE_REFUND
  }

  /** Refunds these dispatches added to the store. */
  function RefundCount(before: map<Key, Effect>, log: seq<Sent>): nat {
    |RefundKeys(before, EffectsOf(before, log))|
  }

  lemma {:induction false} NewEffects(before: map<Key, Effect>, log: seq<Sent>, key: Key)
    ensures key in before ==> key in EffectsOf(before, log) && EffectsOf(before, log)[key] == before[key]
    ensures key !in before ==>
              (key in EffectsOf(before, log) <==> exists n :: 0 <= n < |log| && Refunds(log[n]) && log[n].key == key)
    ensures key !in before && key in EffectsOf(before, log) ==>
              exists n :: 0 <= n < |log| && Refunds(log[n]) && log[n].key == key
                       && EffectsOf(before, log)[key] == Effect("issue_refund", Obj(log[n].call.arguments))
  {
    if log != [] {
      var init := log[..|log| - 1];
      NewEffects(before, init, key);
      if key !in before && key in EffectsOf(before, init) {
        var n :| 0 <= n < |init| && Refunds(init[n]) && init[n].key == key
              && EffectsOf(before, init)[key] == Effect("issue_refund", Obj(init[n].call.arguments));
        assert log[n] == init[n];
      }
      if n: nat :| n < |log| && Refunds(log[n]) && log[n].key == key && n < |log| - 1 {
        assert init[n] == log[n];
      }
    }
  }

  /** A dispatch of the refund tool leaves an effect when it returns, and when it fails after its work was done. */
  lemma EffectIff(before: map<Key, Effect>, log: seq<Sent>, key: Key)
    requires key !in before
    ensures key in EffectsOf(before, log) <==>
              exists n :: 0 <= n < |log| && log[n].key == key && log[n].call.name == "issue_refund"
                       && match log[n].outcome
                          case Returned(_) => true
                          case Threw(_, effect) => effect
                          case Broke(_, effect) => effect
  {
    NewEffects(before, log, key);
    forall n | 0 <= n < |log|
      ensures Refunds(log[n]) <==>
                && log[n].call.name == "issue_refund"
                && match log[n].outcome
                   case Returned(_) => true
                   case Threw(_, effect) => effect
                   case Broke(_, effect) => effect
    {
    }
  }

  // ---------------------------------------------------------------------------
  // One refund call per run
  // ---------------------------------------------------------------------------

  function TheOrder(env: Env, text: Json -> string): string {
    if env.job.input.Obj? then OrderId(text, env.job.input.fields) else ""
  }

  /** Any call of the refund tool, and any call with its id, in any plan of the run is the one refund call. */
  lemma OneRefundCall(env: Env, text: Json -> string, rows: seq<Row>, call: ToolCall)
    requires IsDemo(env, text) && LedgerOk(env, 0, rows) && call in LastCalls(rows)
    ensures call.name == ISSUE_REFUND || call.id == "c2" ==> call == RefundCall(TheOrder(env, text))
  {
    LastCallsAreAsked(rows, call);
    var i :| 0 <= i < |rows| && rows[i].body.PlanStep? && call in rows[i].body.calls;
    assert Decided(env, rows[..i], rows[i]);
    var plan :| PlannedFrom(env, rows[..i], plan) && plan.calls == rows[i].body.calls;
    assert RefundBot(text, StateOf(env.job, rows[..i])) == Planned(plan);
  }

  lemma PrefixOk(env: Env, start: nat, rows: seq<Row>, n: nat)
    requires LedgerOk(env, start, rows) && start <= n <= |rows|
    ensures LedgerOk(env, start, rows[..n])
  {
    forall i | 0 <= i < n
      ensures Shaped(env.job, rows[..n][..i], rows[..n][i])
      ensures i >= start ==> Decided(env, rows[..n][..i], rows[..n][i])
    {
      assert rows[..n][..i] == rows[..i];
      assert Shaped(env.job, rows[..i], rows[i]);
      assert i >= start ==> Decided(env, rows[..i], rows[i]);
    }
  }

  /** All refund dispatches of a run, by whatever worker and attempt, carry the one key of the one refund call. */
  lemma RefundsShareTheKey(env: Env, text: Json -> string, now: Time, schedule: seq<Action>, n: nat)
    requires IsDemo(env, text)
    requires var log := Run(env, FULL, Enqueued(now, []), schedule).db.log;
             n < |log| && log[n].call.name == ISSUE_REFUND
    ensures var log := Run(env, FULL, Enqueued(now, []), schedule).db.log;
            log[n].call == RefundCall(TheOrder(env, text)) && log[n].key == KeyOf(env.job, RefundCall(TheOrder(env, text)))
  {
    var i := IntentPrecedesDispatch(env, now, [], schedule, n);
    LedgerAlwaysOk(env, now, [], schedule);
    var db := Run(env, FULL, Enqueued(now, []), schedule).db;
    assert Shaped(env.job, db.rows[..i], db.rows[i]);
    PrefixOk(env, 0, db.rows, i);
    OneRefundCall(env, text, db.rows[..i], db.log[n].call);
  }

  // ---------------------------------------------------------------------------
  // At most once
  // ---------------------------------------------------------------------------

  /** However often the refund is dispatched, at most one refund is added to the store. */
  lemma RefundedAtMostOnce(env: Env, text: Json -> string, now: Time, schedule: seq<Action>, before: map<Key, Effect>)
    requires IsDemo(env, text)
    ensures RefundCount(before, Run(env, FULL, Enqueued(now, []), schedule).db.log) <= 1
  {
    var log := Run(env, FULL, Enqueued(now, []), schedule).db.log;
    var keys := RefundKeys(before, EffectsOf(before, log));
    var only := KeyOf(env.job, RefundCall(TheOrder(env, text)));
    forall key | key in keys
      ensures key == only
    {
      NewEffects(before, log, key);
      var n :| 0 <= n < |log| && Refunds(log[n]) && log[n].key == key;
      RefundsShareTheKey(env, text, now, schedule, n);
    }
    AtMostOneMember(keys, only);
  }

  lemma AtMostOneMember<T>(s: set<T>, x: T)
    requires forall y :: y in s ==> y == x
    ensures |s| == if x in s then 1 else 0
  {
    if x in s {
      assert s == {x};
    } else {
      assert s == {};
    }
  }

  // ---------------------------------------------------------------------------
  // Exactly once
  // ---------------------------------------------------------------------------

  ghost predicate IsToolError(result: Json) {
    exists detail :: result == ToolErrorResult(detail)
  }

  /** No answer to the refund call was a failure of the tool. */
  ghost predicate RefundNeverFailed(rows: seq<Row>) {
    forall j :: 0 <= j < |rows| && rows[j].body.Observation? && rows[j].callId == Some("c2") ==>
      !IsToolError(rows[j].body.result)
  }

  /** What the model sees answered is observed on the ledger. */
  lemma {:induction false} AnsweredIsObserved(job: Job, rows: seq<Row>, id: string) returns (j: nat)
    requires Answered(Messages(job, rows), id)
    ensures j < |rows| && rows[j].body.Observation? && rows[j].callId == Some(id)
  {
    var messages := Messages(job, rows);
    var i :| 0 <= i < |messages| && messages[i].Tool? && messages[i].callId == Some(id);
    var last := rows[|rows| - 1];
    var before := Messages(job, rows[..|rows| - 1]);
    if i < |before| {
      assert before[i] == messages[i];
      j := AnsweredIsObserved(job, rows[..|rows| - 1], id);
    } else {
      j := |rows| - 1;
    }
  }

  /** Before its final answer the bot has seen the refund call answered. */
  lemma FinalAnswerSawRefund(env: Env, text: Json -> string, rows: seq<Row>, i: nat) returns (j: nat)
    requires IsDemo(env, text) && LedgerOk(env, 0, rows) && i < |rows| && rows[i].body.FinalStep?
    ensures j < |rows| && rows[j].body.Observation? && rows[j].callId == Some("c2")
  {
    assert Decided(env, rows[..i], rows[i]);
    var plan :| PlannedFrom(env, rows[..i][..i - 1], plan) && plan.IsFinal() && plan.output == rows[i].body.output;
    assert rows[..i][..i - 1] == rows[..i - 1];
    assert RefundBot(text, StateOf(env.job, rows[..i - 1])) == Planned(plan);
    j := AnsweredIsObserved(env.job, rows[..i - 1], "c2");
  }

  /** An observation row of the call with this id. */
  predicate IsAnswerTo(row: Row, id: string) {
    row.body.Observation? && row.callId == Some(id)
  }

  predicate HasAnswer(rows: seq<Row>, id: string) {
    exists j :: 0 <= j < |rows| && IsAnswerTo(rows[j], id)
  }

  lemma {:induction false} ObservedIsAnswered(job: Job, rows: seq<Row>, id: string)
    requires HasAnswer(rows, id)
    ensures Answered(Messages(job, rows), id)
  {
    var init, last := rows[..|rows| - 1], rows[|rows| - 1];
    var messages, before := Messages(job, rows), Messages(job, init);
    if IsAnswerTo(last, id) {
      assert messages[|before|] == Tool(last.callId, last.body.result);
    } else {
      var j :| 0 <= j < |rows| && IsAnswerTo(rows[j], id);
      assert IsAnswerTo(init[j], id);
      ObservedIsAnswered(job, init, id);
      var i :| 0 <= i < |before| && before[i].Tool? && before[i].callId == Some(id);
      assert messages[i] == before[i];
    }
  }

  lemma AnsweredIff(job: Job, rows: seq<Row>, id: string)
    ensures Answered(Messages(job, rows), id) <==> HasAnswer(rows, id)
  {
    if Answered(Messages(job, rows), id) {
      var j := AnsweredIsObserved(job, rows, id);
      assert IsAnswerTo(rows[j], id);
    }
    if HasAnswer(rows, id) {
      ObservedIsAnswered(job, rows, id);
    }
  }

  /** The bot looks up, refunds, mails and answers, in this order: what a plan of it asks for is the first of the three
      calls without an answer in the rows before it, and a plan without a call means that all three are answered. */
  lemma BotGoesInOrder(env: Env, text: Json -> string, now: Time, schedule: seq<Action>, i: nat)
    requires IsDemo(env, text)
    requires var rows := Run(env, FULL, Enqueued(now, []), schedule).db.rows; i < |rows| && rows[i].body.PlanStep?
    ensures var rows := Run(env, FULL, Enqueued(now, []), schedule).db.rows;
            var before, calls := rows[..i], rows[i].body.calls;
            if calls == [] then HasAnswer(before, "c1") && HasAnswer(before, "c2") && HasAnswer(before, "c3")
            else
              && |calls| == 1 && !HasAnswer(before, calls[0].id) && calls[0].id in {"c1", "c2", "c3"}
              && (calls[0].id == "c1" <==> calls[0].name == "lookup_order")
              && (calls[0].id == "c2" <==> calls[0].name == "issue_refund")
              && (calls[0].id == "c3" <==> calls[0].name == "email_customer")
              && (calls[0].id != "c1" ==> HasAnswer(before, "c1")) && (calls[0].id == "c3" ==> HasAnswer(before, "c2"))
  {
    LedgerAlwaysOk(env, now, [], schedule);
    var rows := Run(env, FULL, Enqueued(now, []), schedule).db.rows;
    assert Decided(env, rows[..i], rows[i]);
    var plan :| PlannedFrom(env, rows[..i], plan) && plan.calls == rows[i].body.calls;
    assert RefundBot(text, StateOf(env.job, rows[..i])) == Planned(plan);
    AnsweredIff(env.job, rows[..i], "c1");
    AnsweredIff(env.job, rows[..i], "c2");
    AnsweredIff(env.job, rows[..i], "c3");
  }

  /** The row that answers the refund call is keyed by that call. */
  lemma AnswerIsKeyed(env: Env, text: Json -> string, rows: seq<Row>, j: nat)
    requires IsDemo(env, text) && LedgerOk(env, 0, rows)
    requires j < |rows| && rows[j].body.Observation? && rows[j].callId == Some("c2")
    ensures rows[j].key == Some(KeyOf(env.job, RefundCall(TheOrder(env, text))))
  {
    assert Shaped(env.job, rows[..j], rows[j]);
    PrefixOk(env, 0, rows, j);
    var call := PendingCalls(env.job, rows[..j])[0];
    assert call in PendingCalls(env.job, rows[..j]);
    OneRefundCall(env, text, rows[..j], call);
  }

  lemma ExplainedIsProduced(env: Env, text: Json -> string, log: seq<Sent>, row: Row, call: ToolCall)
    requires IsDemo(env, text) && call.name == ISSUE_REFUND && row.body.Observation?
    requires RowExplained(env, log, row) && row.key == Some(KeyOf(env.job, call))
    ensures Produced(log, KeyOf(env.job, call), row.body.result)
  {
  }

  /** An answer to the refund call that is no failure was returned by a refund dispatch under the run's refund key. */
  lemma AnswerWasDispatched(env: Env, text: Json -> string, w: World, j: nat) returns (n: nat)
    requires IsDemo(env, text) && ExplainedInv(env, 0, w) && LogOk(env, w)
    requires j < |w.db.rows| && w.db.rows[j].body.Observation? && w.db.rows[j].callId == Some("c2")
    requires !IsToolError(w.db.rows[j].body.result)
    ensures n < |w.db.log| && Refunds(w.db.log[n])
    ensures w.db.log[n].key == KeyOf(env.job, RefundCall(TheOrder(env, text)))
  {
    var call, result := RefundCall(TheOrder(env, text)), w.db.rows[j].body.result;
    AnswerIsKeyed(env, text, w.db.rows, j);
    assert RowExplained(env, w.db.log, w.db.rows[j]);
    ExplainedIsProduced(env, text, w.db.log, w.db.rows[j], call);
    var m :| 0 <= m < |w.db.log| && w.db.log[m].key == KeyOf(env.job, call) && EndsWith(w.db.log[m].outcome, result);
    n := m;
    assert SentAfterIntent(env, w.db.rows, w.db.log[n]);
  }

  /** A run that got to its final answer without the refund tool failing refunded exactly once: over every schedule of
      crashes, stalls, overlaps and retries, whatever other runs had put into the store before. */
  lemma RefundedExactlyOnce(env: Env, text: Json -> string, now: Time, schedule: seq<Action>, before: map<Key, Effect>,
                            i: nat)
    requires IsDemo(env, text) && KeyOf(env.job, RefundCall(TheOrder(env, text))) !in before
    requires var rows := Run(env, FULL, Enqueued(now, []), schedule).db.rows;
             i < |rows| && rows[i].body.FinalStep? && RefundNeverFailed(rows)
    ensures RefundCount(before, Run(env, FULL, Enqueued(now, []), schedule).db.log) == 1
  {
    ObservationsAreProduced(env, now, [], schedule);
    LogAlwaysOk(env, now, [], schedule);
    RefundedAtMostOnce(env, text, now, schedule, before);
    FinalMeansRefunded(env, text, Run(env, FULL, Enqueued(now, []), schedule), before, i);
  }

  lemma FinalMeansRefunded(env: Env, text: Json -> string, w: World, before: map<Key, Effect>, i: nat)
    requires IsDemo(env, text) && KeyOf(env.job, RefundCall(TheOrder(env, text))) !in before
    requires ExplainedInv(env, 0, w) && LogOk(env, w)
    requires i < |w.db.rows| && w.db.rows[i].body.FinalStep? && RefundNeverFailed(w.db.rows)
    ensures RefundCount(before, w.db.log) >= 1
  {
    var only := KeyOf(env.job, RefundCall(TheOrder(env, text)));
    var j := FinalAnswerSawRefund(env, text, w.db.rows, i);
    var n := AnswerWasDispatched(env, text, w, j);
    NewEffects(before, w.db.log, only);
    assert only in RefundKeys(before, EffectsOf(before, w.db.log));
  }

  lemma SucceededIsFinal(start: nat, db: Db) returns (i: nat)
    requires StatusOk(start, db) && db.run.status == Succeeded
    ensures i < |db.rows| && db.rows[i].body.FinalStep?
  {
    i := |db.rows| - 1;
  }

  /** Under timely leases, `succeeded` is enough. */
  lemma SucceededRefundsOnce(env: Env, text: Json -> string, now: Time, schedule: seq<Action>, before: map<Key, Effect>)
    requires IsDemo(env, text) && KeyOf(env.job, RefundCall(TheOrder(env, text))) !in before
    requires AllTimely(env, Enqueued(now, []), schedule)
    requires var db := Run(env, FULL, Enqueued(now, []), schedule).db;
             db.run.status == Succeeded && RefundNeverFailed(db.rows)
    ensures RefundCount(before, Run(env, FULL, Enqueued(now, []), schedule).db.log) == 1
  {
    StatusTellsLedger(env, now, [], schedule);
    var i := SucceededIsFinal(0, Run(env, FULL, Enqueued(now, []), schedule).db);
    RefundedExactlyOnce(env, text, now, schedule, before, i);
  }

  // ---------------------------------------------------------------------------
  // The store itself
  // ---------------------------------------------------------------------------

  /** The arguments of a refund call are the payload its effect records. */
  lemma RefundPayload(orderId: string)
    ensures Obj(RefundCall(orderId).arguments) == Obj(map["order_id" := Str(orderId), "cents" := Num(500)])
  {
  }

  /** The tool runs once for every refund dispatch that does its work, in the order of the dispatches: what is in the
      store afterwards is what `EffectsOf` says, so its counts are counts of the table. */
  method RunTool(store: SideEffects, text: Key -> string, orderId: string, log: seq<Sent>)
    requires forall n :: 0 <= n < |log| && log[n].call.name == ISSUE_REFUND ==> log[n].call == RefundCall(orderId)
    modifies store
    ensures store.effects == EffectsOf(old(store.effects), log)
    ensures |RefundKeys(old(store.effects), store.effects)| == RefundCount(old(store.effects), log)
  {
    for n := 0 to |log|
      invariant store.effects == EffectsOf(old(store.effects), log[..n])
    {
      assert log[..n + 1][..n] == log[..n];
      if Refunds(log[n]) {
        RefundPayload(orderId);
        var result := store.IssueRefund(log[n].key, text, orderId, 500);
      }
    }
    assert log[..|log|] == log;
  }

  /** The dispatches of a run meet what `RunTool` asks. */
  lemma RefundDispatchesAreUniform(env: Env, text: Json -> string, now: Time, schedule: seq<Action>)
    requires IsDemo(env, text)
    ensures var log := Run(env, FULL, Enqueued(now, []), schedule).db.log;
            forall n :: 0 <= n < |log| && log[n].call.name == ISSUE_REFUND ==>
              log[n].call == RefundCall(TheOrder(env, text))
  {
    var log := Run(env, FULL, Enqueued(now, []), schedule).db.log;
    forall n | 0 <= n < |log| && log[n].call.name == ISSUE_REFUND
      ensures log[n].call == RefundCall(TheOrder(env, text))
    {
      RefundsShareTheKey(env, text, now, schedule, n);
    }
  }
}
