/** State reconstruction: the fold of a ledger into the model's messages and the pending tool calls. */
module Rebuild {
  import opened Values
  import opened Models

  /** The immutable columns of a run. */
  datatype Job = Job(id: string, agentRef: string, input: Json, cap: Option<int>)

  function KeyOf(job: Job, call: ToolCall): Key {
    Call(job.id, call)
  }

  // ---------------------------------------------------------------------------
  // The fold, as a specification on ledgers that grow at the end
  // ---------------------------------------------------------------------------

  function Messages(job: Job, rows: seq<Row>): seq<Message> {
    if rows == [] then [User(job.input)]
    else
      var before := Messages(job, rows[..|rows| - 1]);
      var last := rows[|rows| - 1];
      match last.body
      case PlanStep(content, calls) => before + [Assistant(content, calls)]
      case Observation(_, _, result) => before + [Tool(last.callId, result)]
      case _ => before
  }

  function StateOf(job: Job, rows: seq<Row>): State {
    State(job.id, job.input, Messages(job, rows))
  }

  /** Keys of the recorded observations. */
  function Observed(rows: seq<Row>): set<Key> {
    if rows == [] then {}
    else
      var last := rows[|rows| - 1];
      Observed(rows[..|rows| - 1]) + if last.body.Observation? && last.key.Some? then {last.key.value} else {}
  }

  /** Calls of the last plan, none after a final step. */
  function LastCalls(rows: seq<Row>): seq<ToolCall> {
    if rows == [] then []
    else match rows[|rows| - 1].body
      case PlanStep(_, calls) => calls
      case FinalStep(_) => []
      case _ => LastCalls(rows[..|rows| - 1])
  }

  function Unobserved(job: Job, calls: seq<ToolCall>, seen: set<Key>): (r: seq<ToolCall>)
    ensures |r| <= |calls|
    ensures forall c :: c in r <==> c in calls && KeyOf(job, c) !in seen
  {
    if calls == [] then []
    else if KeyOf(job, calls[0]) in seen then Unobserved(job, calls[1..], seen)
    else [calls[0]] + Unobserved(job, calls[1..], seen)
  }

  /** The resume point: calls of the last plan that have no observation yet. */
  function PendingCalls(job: Job, rows: seq<Row>): seq<ToolCall> {
    Unobserved(job, LastCalls(rows), Observed(rows))
  }

  function PlanCount(rows: seq<Row>): nat {
    if rows == [] then 0
    else PlanCount(rows[..|rows| - 1]) + if rows[|rows| - 1].body.PlanStep? then 1 else 0
  }

  function TotalCost(rows: seq<Row>): int {
    if rows == [] then 0 else TotalCost(rows[..|rows| - 1]) + rows[|rows| - 1].cost
  }

  // ---------------------------------------------------------------------------
  // What the fold is, row by row
  // ---------------------------------------------------------------------------

  /** Rows that become a message. */
  function Spoken(rows: seq<Row>): nat {
    if rows == [] then 0
    else
      var body := rows[|rows| - 1].body;
      Spoken(rows[..|rows| - 1]) + if body.PlanStep? || body.Observation? then 1 else 0
  }

  lemma {:induction false} MessagesOfRows(job: Job, rows: seq<Row>)
    ensures |Messages(job, rows)| == 1 + Spoken(rows) && Messages(job, rows)[0] == User(job.input)
  {
    if rows != [] {
      MessagesOfRows(job, rows[..|rows| - 1]);
    }
  }

  /** The message of row `i`. */
  predicate Says(job: Job, rows: seq<Row>, i: nat)
    requires i < |rows|
  {
    && 1 + Spoken(rows[..i]) < |Messages(job, rows)|
    && var message := Messages(job, rows)[1 + Spoken(rows[..i])];
       && (rows[i].body.PlanStep? ==> message == Assistant(rows[i].body.content, rows[i].body.calls))
       && (rows[i].body.Observation? ==> message == Tool(rows[i].callId, rows[i].body.result))
  }

  lemma {:induction false} MessageOfRow(job: Job, rows: seq<Row>, i: nat)
    requires i < |rows| && (rows[i].body.PlanStep? || rows[i].body.Observation?)
    ensures Says(job, rows, i)
  {
    var init := rows[..|rows| - 1];
    MessagesOfRows(job, init);
    if i < |init| {
      MessageOfRow(job, init, i);
      assert init[..i] == rows[..i];
    }
  }

  /** The history in the ledger's own terms: the input first, then a message for each plan and each observation, in the order
      of the rows, with the calls of the one and the result of the other. */
  ghost predicate Tells(job: Job, rows: seq<Row>, messages: seq<Message>) {
    && |messages| == 1 + Spoken(rows) && messages[0] == User(job.input)
    && (forall i :: 0 <= i < |rows| && rows[i].body.PlanStep? ==>
          && 1 + Spoken(rows[..i]) < |messages|
          && messages[1 + Spoken(rows[..i])] == Assistant(rows[i].body.content, rows[i].body.calls))
    && forall i :: 0 <= i < |rows| && rows[i].body.Observation? ==>
         && 1 + Spoken(rows[..i]) < |messages|
         && messages[1 + Spoken(rows[..i])] == Tool(rows[i].callId, rows[i].body.result)
  }

  lemma MessagesTell(job: Job, rows: seq<Row>)
    ensures Tells(job, rows, Messages(job, rows))
  {
    MessagesOfRows(job, rows);
    forall i | 0 <= i < |rows| && (rows[i].body.PlanStep? || rows[i].body.Observation?)
      ensures Says(job, rows, i)
    {
      MessageOfRow(job, rows, i);
    }
  }

  /** Row `p` is the last plan, and no final step came after it. */
  predicate IsLastPlan(rows: seq<Row>, p: int) {
    && 0 <= p < |rows| && rows[p].body.PlanStep?
    && forall i :: p < i < |rows| ==> !rows[i].body.PlanStep? && !rows[i].body.FinalStep?
  }

  lemma {:induction false} LastCallsOfPlan(rows: seq<Row>)
    ensures forall p :: IsLastPlan(rows, p) ==> LastCalls(rows) == rows[p].body.calls
    ensures (forall p :: !IsLastPlan(rows, p)) ==> LastCalls(rows) == []
  {
    if rows != [] {
      var init, n := rows[..|rows| - 1], |rows| - 1;
      LastCallsOfPlan(init);
      if rows[n].body.PlanStep? {
        assert IsLastPlan(rows, n);
      } else if !rows[n].body.FinalStep? {
        forall p
          ensures IsLastPlan(init, p) <==> IsLastPlan(rows, p)
        {
          assert forall i :: 0 <= i < n ==> init[i] == rows[i];
        }
      }
    }
  }

  /** The resume point in the ledger's own terms: the calls of the last plan, if no final step came after it, that no
      observation row has the key of. */
  ghost predicate Owes(job: Job, rows: seq<Row>, pending: seq<ToolCall>) {
    && (forall p :: IsLastPlan(rows, p) ==>
          forall c :: c in pending <==>
                        && c in rows[p].body.calls
                        && forall i :: 0 <= i < |rows| && rows[i].body.Observation? ==>
                             rows[i].key != Some(Call(job.id, c)))
    && ((forall p :: !IsLastPlan(rows, p)) ==> pending == [])
  }

  lemma PendingIsOwed(job: Job, rows: seq<Row>)
    ensures Owes(job, rows, PendingCalls(job, rows))
  {
    LastCallsOfPlan(rows);
    forall c: ToolCall
      ensures Call(job.id, c) in Observed(rows) <==>
                exists i :: 0 <= i < |rows| && rows[i].body.Observation? && rows[i].key == Some(Call(job.id, c))
    {
      ObservedSound(rows, Call(job.id, c));
    }
  }

  // ---------------------------------------------------------------------------
  // The loop
  // ---------------------------------------------------------------------------

  lemma {:induction false} UnobservedAppend(job: Job, calls: seq<ToolCall>, call: ToolCall, seen: set<Key>)
    ensures Unobserved(job, calls + [call], seen)
         == if KeyOf(job, call) in seen then Unobserved(job, calls, seen) else Unobserved(job, calls, seen) + [call]
  {
    var more := calls + [call];
    if calls != [] {
      assert more[1..] == calls[1..] + [call];
      UnobservedAppend(job, calls[1..], call, seen);
    }
  }

  /** The calls whose key is not among those seen, in order. */
  method NotObserved(job: Job, calls: seq<ToolCall>, seen: set<Key>) returns (pending: seq<ToolCall>)
    ensures pending == Unobserved(job, calls, seen)
  {
    pending := [];
    for n := 0 to |calls|
      invariant pending == Unobserved(job, calls[..n], seen)
    {
      UnobservedAppend(job, calls[..n], calls[n], seen);
      assert calls[..n + 1] == calls[..n] + [calls[n]];
      if KeyOf(job, calls[n]) !in seen {
        pending := pending + [calls[n]];
      }
    }
    assert calls[..|calls|] == calls;
  }

  /** The fold of a ledger into the model's view of the run, and the calls it still owes. */
  method RebuildState(job: Job, steps: seq<Row>) returns (state: State, pending: seq<ToolCall>)
    ensures state == StateOf(job, steps)
    ensures pending == PendingCalls(job, steps)
    ensures state.run == job.id && state.input == job.input && Tells(job, steps, state.messages)
    ensures Owes(job, steps, pending)
  {
    var messages := [User(job.input)];
    var observedKeys: set<Key> := {};
    var lastPlanCalls: seq<ToolCall> := [];
    for n := 0 to |steps|
      invariant messages == Messages(job, steps[..n])
      invariant observedKeys == Observed(steps[..n])
      invariant lastPlanCalls == LastCalls(steps[..n])
    {
      assert steps[..n + 1][..n] == steps[..n];
      var s := steps[n];
      match s.body
      case PlanStep(content, calls) =>
        lastPlanCalls := calls;
        messages := messages + [Assistant(content, calls)];
      case Observation(_, _, result) =>
        if s.key.Some? {
          observedKeys := observedKeys + {s.key.value};
        }
        messages := messages + [Tool(s.callId, result)];
      case FinalStep(_) =>
        lastPlanCalls := [];
      case _ =>
    }
    assert steps[..|steps|] == steps;
    pending := NotObserved(job, lastPlanCalls, observedKeys);
    state := State(job.id, job.input, messages);
    MessagesTell(job, steps);
    PendingIsOwed(job, steps);
  }

  // ---------------------------------------------------------------------------
  // How the fold moves when the ledger grows
  // ---------------------------------------------------------------------------

  lemma FoldAppend(job: Job, rows: seq<Row>, row: Row)
    ensures LastCalls(rows + [row]) ==
            if row.body.PlanStep? then row.body.calls else if row.body.FinalStep? then [] else LastCalls(rows)
    ensures Observed(rows + [row]) ==
            if row.body.Observation? && row.key.Some? then Observed(rows) + {row.key.value} else Observed(rows)
    ensures PlanCount(rows + [row]) == PlanCount(rows) + if row.body.PlanStep? then 1 else 0
    ensures TotalCost(rows + [row]) == TotalCost(rows) + row.cost
    ensures !row.body.PlanStep? && !row.body.Observation? ==> Messages(job, rows + [row]) == Messages(job, rows)
  {
    assert (rows + [row])[..|rows|] == rows;
  }

  /** Dropping what is seen now and then what is seen later drops what is seen later. */
  lemma {:induction false} UnobservedTwice(job: Job, calls: seq<ToolCall>, seen: set<Key>, later: set<Key>)
    requires seen <= later
    ensures Unobserved(job, Unobserved(job, calls, seen), later) == Unobserved(job, calls, later)
  {
    if calls != [] {
      UnobservedTwice(job, calls[1..], seen, later);
      var rest := Unobserved(job, calls[1..], seen);
      assert ([calls[0]] + rest)[1..] == rest;
    }
  }

  lemma {:induction false} ObservedSound(rows: seq<Row>, k: Key)
    ensures k in Observed(rows) <==>
            exists i :: 0 <= i < |rows| && rows[i].body.Observation? && rows[i].key == Some(k)
  {
    if rows != [] {
      var init := rows[..|rows| - 1];
      ObservedSound(init, k);
      if k in Observed(init) {
        var i :| 0 <= i < |init| && init[i].body.Observation? && init[i].key == Some(k);
        assert rows[i].body.Observation? && rows[i].key == Some(k);
      }
      if exists i :: 0 <= i < |rows| && rows[i].body.Observation? && rows[i].key == Some(k) {
        var i :| 0 <= i < |rows| && rows[i].body.Observation? && rows[i].key == Some(k);
        if i < |rows| - 1 {
          assert init[i].body.Observation? && init[i].key == Some(k);
        }
      }
    }
  }

  lemma {:induction false} ObservedMonotone(rows: seq<Row>, more: seq<Row>)
    requires rows <= more
    ensures Observed(rows) <= Observed(more)
  {
    if |rows| < |more| {
      ObservedMonotone(rows, more[..|more| - 1]);
    } else {
      assert rows == more;
    }
  }

  predicate Asked(rows: seq<Row>, call: ToolCall) {
    exists i :: 0 <= i < |rows| && rows[i].body.PlanStep? && call in rows[i].body.calls
  }

  lemma {:induction false} LastCallsAreAsked(rows: seq<Row>, call: ToolCall)
    requires call in LastCalls(rows)
    ensures Asked(rows, call)
  {
    var init, last := rows[..|rows| - 1], rows[|rows| - 1];
    if last.body.PlanStep? {
      assert rows[|rows| - 1].body.PlanStep? && call in rows[|rows| - 1].body.calls;
    } else {
      LastCallsAreAsked(init, call);
      var i :| 0 <= i < |init| && init[i].body.PlanStep? && call in init[i].body.calls;
      assert rows[i].body.PlanStep? && call in rows[i].body.calls;
    }
  }
}
