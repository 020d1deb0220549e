/** Replay and fork: reading a ledger back, and starting a new run from a copy of its prefix. */
module Fork {
  import opened Values
  import opened Models
  import opened Rebuild
  import opened Protocol
  import opened LedgerInvariant
  import opened Grammar
  import opened Timed

  // ---------------------------------------------------------------------------
  // Tool calls of the plans, by id
  // ---------------------------------------------------------------------------

  function AddCalls(known: map<string, ToolCall>, calls: seq<ToolCall>): map<string, ToolCall> {
    if calls == [] then known
    else AddCalls(known, calls[..|calls| - 1])[calls[|calls| - 1].id := calls[|calls| - 1]]
  }

  function CallsById(rows: seq<Row>): map<string, ToolCall> {
    if rows == [] then map[]
    else
      var before := CallsById(rows[..|rows| - 1]);
      match rows[|rows| - 1].body
      case PlanStep(_, calls) => AddCalls(before, calls)
      case _ => before
  }

  /** Call `k` of plan `p` is the last one a plan gave its id. */
  predicate IsLastNamed(rows: seq<Row>, p: int, k: int) {
    && 0 <= p < |rows| && rows[p].body.PlanStep? && 0 <= k < |rows[p].body.calls|
    && (forall j :: k < j < |rows[p].body.calls| ==> rows[p].body.calls[j].id != rows[p].body.calls[k].id)
    && forall i, j :: p < i < |rows| && rows[i].body.PlanStep? && 0 <= j < |rows[i].body.calls| ==>
         rows[i].body.calls[j].id != rows[p].body.calls[k].id
  }

  /** Every call that is the last of its id is what the id stands for, and nothing else is. */
  ghost predicate LastNamed(rows: seq<Row>, known: map<string, ToolCall>) {
    && (forall p, k :: IsLastNamed(rows, p, k) ==>
          rows[p].body.calls[k].id in known && known[rows[p].body.calls[k].id] == rows[p].body.calls[k])
    && forall id :: id in known ==> exists p, k :: IsLastNamed(rows, p, k) && rows[p].body.calls[k].id == id
  }

  /** Each id stands for the last call a plan gave it. */
  method ArgsByToolCall(steps: seq<Row>) returns (known: map<string, ToolCall>)
    ensures known == CallsById(steps) && LastNamed(steps, known)
  {
    CallsByIdNamesLast(steps);
    known := map[];
    for n := 0 to |steps|
      invariant known == CallsById(steps[..n])
    {
      assert steps[..n + 1][..n] == steps[..n];
      var s := steps[n];
      if s.body.PlanStep? {
        var before := known;
        for m := 0 to |s.body.calls|
          invariant known == AddCalls(before, s.body.calls[..m])
        {
          assert s.body.calls[..m + 1][..m] == s.body.calls[..m];
          known := known[s.body.calls[m].id := s.body.calls[m]];
        }
        assert s.body.calls[..|s.body.calls|] == s.body.calls;
      }
    }
    assert steps[..|steps|] == steps;
  }

  // ---------------------------------------------------------------------------
  // The copy
  // ---------------------------------------------------------------------------

  /** A copied step's key, derived again for the new run. */
  function ForkKey(job: Job, known: map<string, ToolCall>, row: Row): Option<Key> {
    if row.body.Observation? && row.callId.Some? && row.callId.value in known then
      Some(KeyOf(job, known[row.callId.value]))
    else if row.body.IntentStep? && row.body.call.id in known then
      Some(Intent(KeyOf(job, known[row.body.call.id])))
    else None
  }

  function ForkRow(job: Job, known: map<string, ToolCall>, row: Row): Row {
    row.(key := ForkKey(job, known, row))
  }

  function ForkRows(job: Job, rows: seq<Row>): seq<Row> {
    seq(|rows|, i requires 0 <= i < |rows| => ForkRow(job, CallsById(rows), rows[i]))
  }

  /** `key` is that of the last call a plan gave this id, in run `run`; there is none if no plan used the id. */
  ghost predicate StandsFor(run: string, rows: seq<Row>, id: string, key: Option<Key>) {
    && (forall p, k :: IsLastNamed(rows, p, k) && rows[p].body.calls[k].id == id ==>
          key == Some(Call(run, rows[p].body.calls[k])))
    && ((forall p, k :: IsLastNamed(rows, p, k) ==> rows[p].body.calls[k].id != id) ==> key == None)
  }

  /** A step and its copy differ in the key alone: that of an observation or an intent is derived again from the id. */
  ghost predicate IsCopy(run: string, rows: seq<Row>, row: Row, copy: Row) {
    && copy.seqNo == row.seqNo && copy.body == row.body && copy.callId == row.callId && copy.cost == row.cost
    && copy.worker == row.worker && copy.attempt == row.attempt
    && match row.body
       case Observation(_, _, _) =>
         if row.callId.Some? then StandsFor(run, rows, row.callId.value, copy.key) else copy.key == None
       case IntentStep(call) =>
         && (copy.key.Some? ==> copy.key.value.Intent?)
         && StandsFor(run, rows, call.id, if copy.key.Some? then Some(copy.key.value.of) else None)
       case _ => copy.key == None
  }

  lemma ForkRowIsCopy(job: Job, rows: seq<Row>, i: nat)
    requires i < |rows|
    ensures IsCopy(job.id, rows, rows[i], ForkRows(job, rows)[i])
  {
    var known := CallsById(rows);
    CallsByIdNamesLast(rows);
    forall id: string
      ensures StandsFor(job.id, rows, id, if id in known then Some(Call(job.id, known[id])) else None)
    {
    }
  }

  /** Steps up to and including `fromSeq`. */
  function UpTo(rows: seq<Row>, fromSeq: int): seq<Row> {
    if rows == [] then []
    else
      var before := UpTo(rows[..|rows| - 1], fromSeq);
      if rows[|rows| - 1].seqNo <= fromSeq then before + [rows[|rows| - 1]] else before
  }

  datatype RunRecord = RunRecord(job: Job, row: RunRow, usedCents: int, forkedFrom: Option<string>, forkSeq: Option<int>)

  /** The new run: queued, no attempt yet, the same agent, input and cap. */
  function ForkedRun(source: RunRecord, newId: string, steps: seq<Row>, fromSeq: int): RunRecord {
    RunRecord(source.job.(id := newId),
              RunRow(Queued, if steps == [] || steps[|steps| - 1].seqNo < 0 then 0 else steps[|steps| - 1].seqNo,
                     None, None, 0, false, None, None),
              TotalCost(steps), Some(source.job.id), Some(fromSeq))
  }

  /** The tables `runs` and `run_steps`. */
  class Store {
    var runs: map<string, RunRecord>
    var steps: map<string, seq<Row>>

    ghost predicate Valid()
      reads this
    {
      runs.Keys == steps.Keys && forall id :: id in runs ==> runs[id].job.id == id
    }

    constructor ()
      ensures Valid() && runs == map[]
    {
      runs := map[];
      steps := map[];
    }

    /** Copy the steps of `sourceId` up to `fromSeq` into the new run `newId`, one insert at a time. A step the unique
        constraints reject rolls everything back. */
    method ForkRun(sourceId: string, newId: string, fromSeq: int) returns (ok: bool)
      requires Valid() && sourceId in runs && newId !in runs
      modifies this
      ensures Valid()
      ensures var copied := UpTo(OrderBySeq(old(steps[sourceId])), fromSeq);
              var rows := ForkRows(old(runs[sourceId]).job.(id := newId), copied);
              && (ok <==> Insertable(rows))
              && (ok ==> && runs == old(runs)[newId := ForkedRun(old(runs[sourceId]), newId, copied, fromSeq)]
                         && steps == old(steps)[newId := rows])
      ensures ok ==>
                && runs[newId].job == old(runs[sourceId]).job.(id := newId)
                && runs[newId].row.status == Queued && runs[newId].row.attempt == 0 && !runs[newId].row.cancel
                && runs[newId].row.owner == None && runs[newId].row.expiry == None
                && runs[newId].row.error == None && runs[newId].row.output == None
                && runs[newId].forkedFrom == Some(sourceId) && runs[newId].forkSeq == Some(fromSeq)
                && runs[newId].usedCents == TotalCost(steps[newId])
      ensures ok && GapFree(old(steps[sourceId])) ==>
                var source := old(steps[sourceId]);
                var n := if fromSeq < 0 then 0 else if fromSeq > |source| then |source| else fromSeq;
                && |steps[newId]| == runs[newId].row.cursor == n
                && forall i :: 0 <= i < n ==> IsCopy(newId, source[..n], source[i], steps[newId][i])
      ensures !ok ==> runs == old(runs) && steps == old(steps)
    {
      var source := runs[sourceId];
      var copied := UpTo(OrderBySeq(steps[sourceId]), fromSeq);
      var known := ArgsByToolCall(copied);
      var forked := ForkedRun(source, newId, copied, fromSeq);
      var inserted;
      inserted, ok := InsertCopies(forked.job, known, copied);
      if ok {
        CopiesOfPrefix(source, newId, steps[sourceId], fromSeq);
        runs := runs[newId := forked];
        steps := steps[newId := inserted];
      }
    }
  }

  /** What a fork is of a ledger without gaps. */
  lemma CopiesOfPrefix(source: RunRecord, newId: string, rows: seq<Row>, fromSeq: int)
    ensures var copied := UpTo(OrderBySeq(rows), fromSeq);
            TotalCost(ForkRows(source.job.(id := newId), copied)) == TotalCost(copied)
    ensures GapFree(rows) ==>
              var copied := UpTo(OrderBySeq(rows), fromSeq);
              var n := if fromSeq < 0 then 0 else if fromSeq > |rows| then |rows| else fromSeq;
              && copied == rows[..n] && ForkedRun(source, newId, copied, fromSeq).row.cursor == n
              && forall i :: 0 <= i < n ==>
                   IsCopy(newId, rows[..n], rows[i], ForkRows(source.job.(id := newId), copied)[i])
  {
    var copied, job' := UpTo(OrderBySeq(rows), fromSeq), source.job.(id := newId);
    ForkCostsTheSame(job', copied, |copied|);
    assert ForkRows(job', copied)[..|copied|] == ForkRows(job', copied) && copied[..|copied|] == copied;
    if GapFree(rows) {
      OrderBySeqIsIdentity(rows);
      UpToIsPrefix(rows, fromSeq);
      forall i | 0 <= i < |copied|
        ensures IsCopy(newId, copied, copied[i], ForkRows(job', copied)[i])
      {
        ForkRowIsCopy(job', copied, i);
      }
    }
  }

  /** The copies go in one insert at a time, until one is rejected. */
  method InsertCopies(job: Job, known: map<string, ToolCall>, copied: seq<Row>)
    returns (inserted: seq<Row>, ok: bool)
    requires known == CallsById(copied)
    ensures ok <==> Insertable(ForkRows(job, copied))
    ensures ok ==> inserted == ForkRows(job, copied)
  {
    inserted := [];
    ghost var rows := ForkRows(job, copied);
    for n := 0 to |copied|
      invariant inserted == rows[..n] && Insertable(inserted)
    {
      var row := ForkRow(job, known, copied[n]);
      assert rows[..n + 1] == rows[..n] + [row];
      if !Accepts(FULL, inserted, row) {
        PrefixInsertable(rows, n + 1);
        return inserted, false;
      }
      inserted := inserted + [row];
    }
    assert rows[..|copied|] == rows;
    return inserted, true;
  }

  /** The table accepts these rows one after the other. */
  predicate Insertable(rows: seq<Row>) {
    rows == [] || (Insertable(rows[..|rows| - 1]) && Accepts(FULL, rows[..|rows| - 1], rows[|rows| - 1]))
  }

  lemma {:induction false} PrefixInsertable(rows: seq<Row>, n: nat)
    requires n <= |rows|
    ensures Insertable(rows) ==> Insertable(rows[..n])
    decreases |rows|
  {
    if n < |rows| {
      PrefixInsertable(rows[..|rows| - 1], n);
      assert rows[..|rows| - 1][..n] == rows[..n];
    } else {
      assert rows[..n] == rows;
    }
  }

  lemma {:induction false} InsertableIsDistinct(rows: seq<Row>)
    requires GapFree(rows)
    ensures Insertable(rows) <==> KeysDistinct(rows)
  {
    if rows != [] {
      var init := rows[..|rows| - 1];
      InsertableIsDistinct(init);
      assert forall i :: 0 <= i < |init| ==> init[i] == rows[i];
    }
  }

  // ---------------------------------------------------------------------------
  // Calls of a justified ledger
  // ---------------------------------------------------------------------------

  lemma {:induction false} AddCallsSound(known: map<string, ToolCall>, calls: seq<ToolCall>, id: string)
    ensures id in AddCalls(known, calls) <==> id in known || exists k :: 0 <= k < |calls| && calls[k].id == id
    ensures id in AddCalls(known, calls) ==>
              || (id in known && AddCalls(known, calls)[id] == known[id])
              || (AddCalls(known, calls)[id] in calls && AddCalls(known, calls)[id].id == id)
    ensures forall k :: 0 <= k < |calls| && calls[k].id == id && (forall j :: k < j < |calls| ==> calls[j].id != id) ==>
              id in AddCalls(known, calls) && AddCalls(known, calls)[id] == calls[k]
  {
    if calls != [] {
      var init := calls[..|calls| - 1];
      AddCallsSound(known, init, id);
      assert forall k :: 0 <= k < |init| ==> init[k] == calls[k];
      assert calls[|calls| - 1] in calls;
      assert forall c :: c in init ==> c in calls;
    }
  }

  lemma AskedAppend(rows: seq<Row>, row: Row, call: ToolCall)
    ensures Asked(rows + [row], call) <==> Asked(rows, call) || (row.body.PlanStep? && call in row.body.calls)
  {
    var more := rows + [row];
    if Asked(rows, call) {
      var i :| 0 <= i < |rows| && rows[i].body.PlanStep? && call in rows[i].body.calls;
      assert more[i].body.PlanStep? && call in more[i].body.calls;
    }
    if row.body.PlanStep? && call in row.body.calls {
      assert more[|rows|].body.PlanStep? && call in more[|rows|].body.calls;
    }
  }

  /** An id is known exactly when a plan asked for a call with it, and stands for such a call. */
  lemma {:induction false} CallsByIdSound(rows: seq<Row>, id: string)
    ensures id in CallsById(rows) ==> Asked(rows, CallsById(rows)[id]) && CallsById(rows)[id].id == id
    ensures forall call :: Asked(rows, call) && call.id == id ==> id in CallsById(rows)
  {
    if rows != [] {
      var init, last := rows[..|rows| - 1], rows[|rows| - 1];
      assert rows == init + [last];
      CallsByIdSound(init, id);
      if last.body.PlanStep? {
        AddCallsSound(CallsById(init), last.body.calls, id);
      }
      forall call | Asked(rows, call) && call.id == id
        ensures id in CallsById(rows)
      {
        AskedAppend(init, last, call);
      }
      if id in CallsById(rows) {
        AskedAppend(init, last, CallsById(rows)[id]);
      }
    }
  }

  /** The last call of a plan with a given id. */
  lemma {:induction false} LastInPlan(calls: seq<ToolCall>, k: nat) returns (m: nat)
    requires k < |calls|
    ensures k <= m < |calls| && calls[m].id == calls[k].id
    ensures forall j :: m < j < |calls| ==> calls[j].id != calls[m].id
    decreases |calls| - k
  {
    m := k;
    if j :| k < j < |calls| && calls[j].id == calls[k].id {
      m := LastInPlan(calls, j);
    }
  }

  lemma {:induction false} LastNamedIsKnown(rows: seq<Row>, p: nat, k: nat)
    requires IsLastNamed(rows, p, k)
    ensures var call := rows[p].body.calls[k]; call.id in CallsById(rows) && CallsById(rows)[call.id] == call
  {
    var n := |rows| - 1;
    var init, id := rows[..n], rows[p].body.calls[k].id;
    if p < n {
      LastNamedIsKnown(init, p, k);
    }
    if rows[n].body.PlanStep? {
      AddCallsSound(CallsById(init), rows[n].body.calls, id);
    }
  }

  lemma {:induction false} KnownIsLastNamed(rows: seq<Row>, id: string) returns (p: nat, k: nat)
    requires id in CallsById(rows)
    ensures IsLastNamed(rows, p, k) && rows[p].body.calls[k].id == id
  {
    var n := |rows| - 1;
    var init := rows[..n];
    if rows[n].body.PlanStep? {
      var calls := rows[n].body.calls;
      AddCallsSound(CallsById(init), calls, id);
      if j: nat :| j < |calls| && calls[j].id == id {
        var m := LastInPlan(calls, j);
        return n, m;
      }
    }
    p, k := KnownIsLastNamed(init, id);
    assert init[p] == rows[p];
  }

  lemma CallsByIdNamesLast(rows: seq<Row>)
    ensures LastNamed(rows, CallsById(rows))
  {
    forall p, k | IsLastNamed(rows, p, k)
      ensures var call := rows[p].body.calls[k]; call.id in CallsById(rows) && CallsById(rows)[call.id] == call
    {
      LastNamedIsKnown(rows, p, k);
    }
    forall id | id in CallsById(rows)
      ensures exists p, k :: IsLastNamed(rows, p, k) && rows[p].body.calls[k].id == id
    {
      var p, k := KnownIsLastNamed(rows, id);
    }
  }

  /** The call a row with a key is about. */
  function CallOf(row: Row): Option<ToolCall> {
    match row.key
    case Some(Call(_, call)) => Some(call)
    case Some(Intent(Call(_, call))) => Some(call)
    case _ => None
  }

  /** On a source ledger a keyed row is about a call some plan before it asked for. */
  lemma KeyedRowIsAsked(job: Job, rows: seq<Row>, i: nat)
    requires StartOk(job, rows) && i < |rows| && (rows[i].body.Observation? || rows[i].body.IntentStep?)
    ensures CallOf(rows[i]).Some? && Asked(rows, CallOf(rows[i]).value)
    ensures rows[i].callId == Some(CallOf(rows[i]).value.id)
    ensures rows[i].body.Observation? ==> rows[i].key == Some(KeyOf(job, CallOf(rows[i]).value))
    ensures rows[i].body.IntentStep? ==>
              rows[i].body.call == CallOf(rows[i]).value && rows[i].key == Some(Intent(KeyOf(job, CallOf(rows[i]).value)))
  {
    assert Shaped(job, rows[..i], rows[i]);
    var call := CallOf(rows[i]).value;
    if rows[i].body.Observation? {
      assert PendingCalls(job, rows[..i])[0] in PendingCalls(job, rows[..i]);
    }
    LastCallsAreAsked(rows[..i], call);
    var k :| 0 <= k < i && rows[..i][k].body.PlanStep? && call in rows[..i][k].body.calls;
    assert rows[k].body.PlanStep? && call in rows[k].body.calls;
  }

  lemma OtherRowHasNoKey(job: Job, rows: seq<Row>, i: nat)
    requires StartOk(job, rows) && i < |rows| && !rows[i].body.Observation? && !rows[i].body.IntentStep?
    ensures rows[i].key == None
  {
    assert Shaped(job, rows[..i], rows[i]);
  }

  // ---------------------------------------------------------------------------
  // When a fork is accepted
  // ---------------------------------------------------------------------------

  /** No two observations, and no two intents, share a tool-call id. */
  predicate IdsRecordedOnce(rows: seq<Row>) {
    forall i, j :: 0 <= i < j < |rows| && rows[i].callId == rows[j].callId ==>
      && !(rows[i].body.Observation? && rows[j].body.Observation?)
      && !(rows[i].body.IntentStep? && rows[j].body.IntentStep?)
  }

  /** The new key of a copied row is a function of its call id alone. */
  lemma ForkKeyIs(job: Job, job': Job, rows: seq<Row>, i: nat)
    requires StartOk(job, rows) && i < |rows|
    ensures var key := ForkRows(job', rows)[i].key;
            if rows[i].body.Observation? then
              rows[i].callId.Some? && rows[i].callId.value in CallsById(rows)
              && key == Some(KeyOf(job', CallsById(rows)[rows[i].callId.value]))
              && CallsById(rows)[rows[i].callId.value].id == rows[i].callId.value
            else if rows[i].body.IntentStep? then
              rows[i].callId.Some? && rows[i].callId.value in CallsById(rows)
              && key == Some(Intent(KeyOf(job', CallsById(rows)[rows[i].callId.value])))
              && CallsById(rows)[rows[i].callId.value].id == rows[i].callId.value
            else key == None
  {
    if rows[i].body.Observation? || rows[i].body.IntentStep? {
      KeyedRowIsAsked(job, rows, i);
      CallsByIdSound(rows, rows[i].callId.value);
    }
  }

  /** The unique constraints accept the copy exactly when no id was recorded for two calls. */
  lemma ForkAcceptedIff(job: Job, job': Job, rows: seq<Row>)
    requires StartOk(job, rows)
    ensures Insertable(ForkRows(job', rows)) <==> IdsRecordedOnce(rows)
  {
    var forked := ForkRows(job', rows);
    InsertableIsDistinct(forked);
    if IdsRecordedOnce(rows) {
      forall i, j | 0 <= i < j < |forked| && forked[i].key.Some?
        ensures forked[i].key != forked[j].key
      {
        ForkKeyIs(job, job', rows, i);
        ForkKeyIs(job, job', rows, j);
      }
    } else {
      var i, j :| 0 <= i < j < |rows| && rows[i].callId == rows[j].callId
               && ((rows[i].body.Observation? && rows[j].body.Observation?)
                   || (rows[i].body.IntentStep? && rows[j].body.IntentStep?));
      ForkKeyIs(job, job', rows, i);
      ForkKeyIs(job, job', rows, j);
      assert forked[i].key == forked[j].key;
    }
  }

  // ---------------------------------------------------------------------------
  // When a fork rebuilds the same state
  // ---------------------------------------------------------------------------

  lemma {:induction false} SameMessages(job: Job, job': Job, rows: seq<Row>, others: seq<Row>)
    requires job.input == job'.input && |rows| == |others|
    requires forall i :: 0 <= i < |rows| ==> others[i].body == rows[i].body && others[i].callId == rows[i].callId
    ensures Messages(job', others) == Messages(job, rows)
    ensures LastCalls(others) == LastCalls(rows)
  {
    if rows != [] {
      SameMessages(job, job', rows[..|rows| - 1], others[..|others| - 1]);
    }
  }

  /** The messages the model sees are those of the source, whatever its ids. */
  lemma ForkKeepsMessages(job: Job, job': Job, rows: seq<Row>)
    requires job.input == job'.input
    ensures Messages(job', ForkRows(job', rows)) == Messages(job, rows)
    ensures LastCalls(ForkRows(job', rows)) == LastCalls(rows)
  {
    SameMessages(job, job', rows, ForkRows(job', rows));
  }

  predicate IdObserved(rows: seq<Row>, id: string) {
    exists i :: 0 <= i < |rows| && rows[i].body.Observation? && rows[i].callId == Some(id)
  }

  /** In the fork a call of the last plan counts as observed exactly when its id was, and the id stands for it. */
  lemma ForkObserves(job: Job, job': Job, rows: seq<Row>, call: ToolCall)
    requires StartOk(job, rows) && call in LastCalls(rows)
    ensures call.id in CallsById(rows)
    ensures KeyOf(job', call) in Observed(ForkRows(job', rows)) <==>
              IdObserved(rows, call.id) && CallsById(rows)[call.id] == call
  {
    var forked := ForkRows(job', rows);
    ObservedSound(forked, KeyOf(job', call));
    LastCallsAreAsked(rows, call);
    CallsByIdSound(rows, call.id);
    if KeyOf(job', call) in Observed(forked) {
      var i :| 0 <= i < |forked| && forked[i].body.Observation? && forked[i].key == Some(KeyOf(job', call));
      ForkKeyIs(job, job', rows, i);
    }
    if IdObserved(rows, call.id) && CallsById(rows)[call.id] == call {
      var i :| 0 <= i < |rows| && rows[i].body.Observation? && rows[i].callId == Some(call.id);
      ForkKeyIs(job, job', rows, i);
      assert forked[i].body.Observation? && forked[i].key == Some(KeyOf(job', call));
    }
  }

  lemma {:induction false} SamePendingIff(job: Job, job': Job, calls: seq<ToolCall>, seen: set<Key>, seen': set<Key>)
    ensures Unobserved(job, calls, seen) == Unobserved(job', calls, seen') <==>
            forall c :: c in calls ==> (KeyOf(job, c) in seen <==> KeyOf(job', c) in seen')
  {
    if Unobserved(job, calls, seen) == Unobserved(job', calls, seen') {
      forall c | c in calls
        ensures KeyOf(job, c) in seen <==> KeyOf(job', c) in seen'
      {
        assert c in Unobserved(job, calls, seen) <==> c in Unobserved(job', calls, seen');
      }
    } else if forall c :: c in calls ==> (KeyOf(job, c) in seen <==> KeyOf(job', c) in seen') {
      AgreeOnAll(job, job', calls, seen, seen');
    }
  }

  lemma {:induction false} AgreeOnAll(job: Job, job': Job, calls: seq<ToolCall>, seen: set<Key>, seen': set<Key>)
    requires forall c :: c in calls ==> (KeyOf(job, c) in seen <==> KeyOf(job', c) in seen')
    ensures Unobserved(job, calls, seen) == Unobserved(job', calls, seen')
  {
    if calls != [] {
      assert calls[0] in calls && forall c :: c in calls[1..] ==> c in calls;
      AgreeOnAll(job, job', calls[1..], seen, seen');
    }
  }

  /** Fork simulation, exactly: although every key is derived again, the fork resumes with the calls the source prefix has
      pending if and only if each call of the last plan is observed just when its id is observed and, to the fork, stands
      for this call. */
  lemma ForkKeepsPendingIff(job: Job, job': Job, rows: seq<Row>)
    requires StartOk(job, rows) && job.input == job'.input
    ensures PendingCalls(job', ForkRows(job', rows)) == PendingCalls(job, rows) <==>
            forall c :: c in LastCalls(rows) ==>
              (KeyOf(job, c) in Observed(rows) <==>
                 IdObserved(rows, c.id) && c.id in CallsById(rows) && CallsById(rows)[c.id] == c)
  {
    var forked := ForkRows(job', rows);
    ForkKeepsMessages(job, job', rows);
    SamePendingIff(job, job', LastCalls(rows), Observed(rows), Observed(forked));
    forall c | c in LastCalls(rows)
      ensures c.id in CallsById(rows)
      ensures KeyOf(job', c) in Observed(forked) <==> IdObserved(rows, c.id) && CallsById(rows)[c.id] == c
    {
      ForkObserves(job, job', rows, c);
    }
  }

  // ---------------------------------------------------------------------------
  // Ids that determine calls
  // ---------------------------------------------------------------------------

  /** A tool-call id determines name and arguments. */
  predicate IdsDetermineCalls(rows: seq<Row>) {
    forall i, j, c, d ::
      (&& 0 <= i < |rows| && rows[i].body.PlanStep? && c in rows[i].body.calls
       && 0 <= j < |rows| && rows[j].body.PlanStep? && d in rows[j].body.calls && c.id == d.id) ==> c == d
  }

  lemma DeterminedId(rows: seq<Row>, call: ToolCall)
    requires IdsDetermineCalls(rows) && Asked(rows, call)
    ensures call.id in CallsById(rows) && CallsById(rows)[call.id] == call
  {
    CallsByIdSound(rows, call.id);
    var i :| 0 <= i < |rows| && rows[i].body.PlanStep? && call in rows[i].body.calls;
    var d := CallsById(rows)[call.id];
    var j :| 0 <= j < |rows| && rows[j].body.PlanStep? && d in rows[j].body.calls;
  }

  function Rekey(job: Job, key: Key): Key {
    match key
    case Call(_, call) => Call(job.id, call)
    case Intent(of) => Intent(Rekey(job, of))
  }

  /** Then the copy is the source with its keys carried over to the new run. */
  lemma ForkIsRekeyed(job: Job, job': Job, rows: seq<Row>, i: nat)
    requires StartOk(job, rows) && IdsDetermineCalls(rows) && i < |rows|
    ensures ForkRows(job', rows)[i]
         == rows[i].(key := if rows[i].key.Some? then Some(Rekey(job', rows[i].key.value)) else None)
  {
    ForkKeyIs(job, job', rows, i);
    if rows[i].body.Observation? || rows[i].body.IntentStep? {
      KeyedRowIsAsked(job, rows, i);
      DeterminedId(rows, CallOf(rows[i]).value);
    } else {
      OtherRowHasNoKey(job, rows, i);
    }
  }

  lemma RekeyedPrefix(job: Job, job': Job, rows: seq<Row>, n: nat)
    requires StartOk(job, rows) && IdsDetermineCalls(rows) && n <= |rows| && job.input == job'.input
    ensures LastCalls(ForkRows(job', rows)[..n]) == LastCalls(rows[..n])
    ensures PendingCalls(job', ForkRows(job', rows)[..n]) == PendingCalls(job, rows[..n])
  {
    var forked := ForkRows(job', rows);
    SameMessages(job, job', rows[..n], forked[..n]);
    forall c: ToolCall
      ensures KeyOf(job, c) in Observed(rows[..n]) <==> KeyOf(job', c) in Observed(forked[..n])
    {
      ObservedSound(rows[..n], KeyOf(job, c));
      ObservedSound(forked[..n], KeyOf(job', c));
      if KeyOf(job, c) in Observed(rows[..n]) {
        var i :| 0 <= i < n && rows[..n][i].body.Observation? && rows[..n][i].key == Some(KeyOf(job, c));
        ForkIsRekeyed(job, job', rows, i);
        assert forked[..n][i].body.Observation? && forked[..n][i].key == Some(KeyOf(job', c));
      }
      if KeyOf(job', c) in Observed(forked[..n]) {
        var i :| 0 <= i < n && forked[..n][i].body.Observation? && forked[..n][i].key == Some(KeyOf(job', c));
        ForkIsRekeyed(job, job', rows, i);
        KeyedRowIsAsked(job, rows, i);
        assert rows[..n][i].body.Observation? && rows[..n][i].key == Some(KeyOf(job, c));
      }
    }
    SamePendingIff(job, job', LastCalls(rows[..n]), Observed(rows[..n]), Observed(forked[..n]));
  }

  lemma KeyShape(job: Job, rows: seq<Row>, i: nat)
    requires StartOk(job, rows) && i < |rows| && rows[i].key.Some?
    ensures CallOf(rows[i]).Some?
    ensures var call := CallOf(rows[i]).value;
            rows[i].key == Some(KeyOf(job, call)) || rows[i].key == Some(Intent(KeyOf(job, call)))
  {
    if rows[i].body.Observation? || rows[i].body.IntentStep? {
      KeyedRowIsAsked(job, rows, i);
    } else {
      OtherRowHasNoKey(job, rows, i);
    }
  }

  lemma ForkedRowIsShaped(job: Job, job': Job, rows: seq<Row>, i: nat)
    requires StartOk(job, rows) && IdsDetermineCalls(rows) && job.input == job'.input && i < |rows|
    ensures Shaped(job', ForkRows(job', rows)[..i], ForkRows(job', rows)[i])
  {
    assert Shaped(job, rows[..i], rows[i]);
    RekeyedPrefix(job, job', rows, i);
    ForkIsRekeyed(job, job', rows, i);
  }

  lemma ForkedKeysDiffer(job: Job, job': Job, rows: seq<Row>, i: nat, j: nat)
    requires StartOk(job, rows) && IdsDetermineCalls(rows) && i < j < |rows| && ForkRows(job', rows)[i].key.Some?
    ensures ForkRows(job', rows)[i].key != ForkRows(job', rows)[j].key
  {
    ForkIsRekeyed(job, job', rows, i);
    ForkIsRekeyed(job, job', rows, j);
    if rows[j].key.Some? {
      KeyShape(job, rows, i);
      KeyShape(job, rows, j);
    }
  }

  /** A fork of a source whose ids determine its calls is a ledger a run may start from, so everything proved of runs
      holds of the fork; and it rebuilds to the state of the source, message by message and call by call. */
  lemma ForkSimulates(job: Job, job': Job, rows: seq<Row>)
    requires StartOk(job, rows) && IdsDetermineCalls(rows) && job.input == job'.input
    ensures StartOk(job', ForkRows(job', rows))
    ensures Messages(job', ForkRows(job', rows)) == Messages(job, rows)
    ensures PendingCalls(job', ForkRows(job', rows)) == PendingCalls(job, rows)
  {
    var forked := ForkRows(job', rows);
    ForkKeepsMessages(job, job', rows);
    RekeyedPrefix(job, job', rows, |rows|);
    assert rows[..|rows|] == rows && forked[..|rows|] == forked;
    forall i | 0 <= i < |forked|
      ensures Shaped(job', forked[..i], forked[i])
    {
      ForkedRowIsShaped(job, job', rows, i);
    }
    forall i, j | 0 <= i < j < |forked| && forked[i].key.Some?
      ensures forked[i].key != forked[j].key
    {
      ForkedKeysDiffer(job, job', rows, i, j);
    }
  }

  // ---------------------------------------------------------------------------
  // Ids that do not
  // ---------------------------------------------------------------------------

  function PlanRow(seqNo: int, call: ToolCall): Row {
    Row(seqNo, PlanStep("", [call]), None, None, 0, "w", 1)
  }

  function AnswerRow(job: Job, seqNo: int, call: ToolCall): Row {
    Row(seqNo, Observation(call.id, call.name, Null), Some(call.id), Some(KeyOf(job, call)), 0, "w", 1)
  }

  /** With nothing pending a ledger may go on with a plan for a call that is not observed. */
  lemma AskOne(job: Job, rows: seq<Row>, call: ToolCall)
    requires StartOk(job, rows) && PendingCalls(job, rows) == [] && KeyOf(job, call) !in Observed(rows)
    ensures var more := rows + [PlanRow(|rows| + 1, call)];
            StartOk(job, more) && LastCalls(more) == PendingCalls(job, more) == [call] && Observed(more) == Observed(rows)
  {
    FoldAppend(job, rows, PlanRow(|rows| + 1, call));
    StartOkAppend(job, rows, PlanRow(|rows| + 1, call));
  }

  /** And then with its answer. */
  lemma AnswerOne(job: Job, rows: seq<Row>, call: ToolCall)
    requires StartOk(job, rows) && LastCalls(rows) == PendingCalls(job, rows) == [call]
    requires KeyFree(rows, Some(KeyOf(job, call)))
    ensures var more := rows + [AnswerRow(job, |rows| + 1, call)];
            StartOk(job, more) && PendingCalls(job, more) == [] && Observed(more) == Observed(rows) + {KeyOf(job, call)}
  {
    FoldAppend(job, rows, AnswerRow(job, |rows| + 1, call));
    StartOkAppend(job, rows, AnswerRow(job, |rows| + 1, call));
  }

  lemma EmptyStart(job: Job)
    ensures StartOk(job, []) && PendingCalls(job, []) == [] && Observed([]) == {}
  {
  }

  /** A plan for one call, and its answer. */
  lemma AskedOnce(job: Job, first: ToolCall) returns (answered: seq<Row>)
    ensures |answered| == 2 && answered[0] == PlanRow(1, first) && answered[1] == AnswerRow(job, 2, first)
    ensures StartOk(job, answered) && PendingCalls(job, answered) == [] && Observed(answered) == {KeyOf(job, first)}
  {
    EmptyStart(job);
    AskOne(job, [], first);
    var asked := [] + [PlanRow(1, first)];
    AnswerOne(job, asked, first);
    answered := asked + [AnswerRow(job, 2, first)];
  }

  /** And a plan for another call: a ledger a run may have. */
  lemma AskedAgain(job: Job, first: ToolCall, second: ToolCall) returns (answered: seq<Row>, rows: seq<Row>)
    requires first != second
    ensures |answered| == 2 && answered[0] == PlanRow(1, first) && answered[1] == AnswerRow(job, 2, first)
    ensures rows == answered + [PlanRow(3, second)]
    ensures StartOk(job, rows) && LastCalls(rows) == PendingCalls(job, rows) == [second]
    ensures Observed(rows) == {KeyOf(job, first)}
  {
    answered := AskedOnce(job, first);
    AskOne(job, answered, second);
    rows := answered + [PlanRow(3, second)];
  }

  /** With a reused id the fork takes the answer of the first call for one of the second, which it never runs: the source
      has it pending, the fork has nothing pending. */
  lemma ReusedIdLosesCall(job: Job, job': Job, first: ToolCall, second: ToolCall) returns (rows: seq<Row>)
    requires first.id == second.id && first != second && job.input == job'.input
    ensures StartOk(job, rows) && PendingCalls(job, rows) == [second] && PendingCalls(job', ForkRows(job', rows)) == []
  {
    var answered;
    answered, rows := AskedAgain(job, first, second);
    ForkKeepsMessages(job, job', rows);
    assert rows[1].body.Observation? && rows[1].callId == Some(second.id);
    assert IdObserved(rows, second.id);
    LastAskedIsKnown(answered, second);
    ForkObserves(job, job', rows, second);
  }

  /** The call asked for last is the one its id stands for. */
  lemma LastAskedIsKnown(rows: seq<Row>, call: ToolCall)
    ensures var known := CallsById(rows + [PlanRow(3, call)]); call.id in known && known[call.id] == call
  {
    assert (rows + [PlanRow(3, call)])[..|rows|] == rows && [call][..0] == [];
    assert AddCalls(CallsById(rows), [call]) == AddCalls(CallsById(rows), [])[call.id := call];
  }

  /** And once the second call is answered as well, the ledger cannot be forked at all. */
  lemma ReusedIdForbidsFork(job: Job, job': Job, first: ToolCall, second: ToolCall) returns (rows: seq<Row>)
    requires first.id == second.id && first != second
    ensures StartOk(job, rows) && !Insertable(ForkRows(job', rows))
  {
    var answered, asked := AskedAgain(job, first, second);
    rows := asked + [AnswerRow(job, 4, second)];
    StartOkAppend(job, asked, AnswerRow(job, 4, second));
    assert rows[1].body.Observation? && rows[3].body.Observation? && rows[1].callId == rows[3].callId;
    assert !IdsRecordedOnce(rows);
    ForkAcceptedIff(job, job', rows);
  }

  // ---------------------------------------------------------------------------
  // Any prefix of any run can be forked
  // ---------------------------------------------------------------------------

  lemma {:induction false} UpToIsPrefix(rows: seq<Row>, fromSeq: int)
    requires GapFree(rows)
    ensures UpTo(rows, fromSeq) == rows[..if fromSeq < 0 then 0 else if fromSeq > |rows| then |rows| else fromSeq]
  {
    if rows != [] {
      var init := rows[..|rows| - 1];
      UpToIsPrefix(init, fromSeq);
      if fromSeq >= |rows| {
        assert init + [rows[|rows| - 1]] == rows;
      } else if fromSeq >= 0 {
        assert init[..fromSeq] == rows[..fromSeq];
      }
    }
  }

  lemma PrefixIsSource(job: Job, rows: seq<Row>, n: nat)
    requires StartOk(job, rows) && n <= |rows|
    ensures StartOk(job, rows[..n])
  {
    forall i | 0 <= i < n
      ensures Shaped(job, rows[..n][..i], rows[..n][i])
    {
      assert rows[..n][..i] == rows[..i];
      assert Shaped(job, rows[..i], rows[i]);
    }
  }

  /** Whatever a run's schedule was and wherever it is forked, the copied prefix is a source, numbered from 1 to the
      new run's cursor. */
  lemma RunsCanBeForked(env: Env, now: Time, rows: seq<Row>, schedule: seq<Action>, fromSeq: int)
    requires StartOk(env.job, rows)
    ensures var copied := UpTo(OrderBySeq(Run(env, FULL, Enqueued(now, rows), schedule).db.rows), fromSeq);
            StartOk(env.job, copied) && (copied != [] ==> copied[|copied| - 1].seqNo == |copied|)
  {
    LedgerAlwaysOk(env, now, rows, schedule);
    var ledger := Run(env, FULL, Enqueued(now, rows), schedule).db.rows;
    OrderBySeqIsIdentity(ledger);
    UpToIsPrefix(ledger, fromSeq);
    PrefixIsSource(env.job, ledger, if fromSeq < 0 then 0 else if fromSeq > |ledger| then |ledger| else fromSeq);
  }

  /** So a run whose ids determine its calls can be forked anywhere: the copy is accepted, it is a ledger a run may start
      from, and the state it rebuilds is that of the source prefix. */
  lemma ForkSucceeds(job: Job, job': Job, rows: seq<Row>, fromSeq: int)
    requires StartOk(job, rows) && IdsDetermineCalls(rows) && job.input == job'.input
    ensures var copied := UpTo(OrderBySeq(rows), fromSeq);
            var forked := ForkRows(job', copied);
            && StartOk(job, copied) && Insertable(forked) && StartOk(job', forked)
            && Messages(job', forked) == Messages(job, copied) && PendingCalls(job', forked) == PendingCalls(job, copied)
  {
    OrderBySeqIsIdentity(rows);
    UpToIsPrefix(rows, fromSeq);
    var n := if fromSeq < 0 then 0 else if fromSeq > |rows| then |rows| else fromSeq;
    PrefixIsSource(job, rows, n);
    assert IdsDetermineCalls(rows[..n]);
    ForkSimulates(job, job', rows[..n]);
    InsertableIsDistinct(ForkRows(job', rows[..n]));
  }

  /** The operation and the theorem together: the fork is queued exactly as a run is enqueued with a ledger it may start
      from, so whatever is proved of runs holds of it. */
  method ForkJustifiedRun(store: Store, sourceId: string, newId: string, fromSeq: int, now: Time) returns (ok: bool)
    requires store.Valid() && sourceId in store.runs && newId !in store.runs
    requires StartOk(store.runs[sourceId].job, store.steps[sourceId]) && IdsDetermineCalls(store.steps[sourceId])
    modifies store
    ensures store.Valid() && ok && newId in store.runs
    ensures StartOk(store.runs[newId].job, store.steps[newId])
    ensures store.runs[newId].row == Enqueued(now, store.steps[newId]).db.run
    ensures store.runs[newId].job == old(store.runs[sourceId].job).(id := newId)
    ensures PendingCalls(store.runs[newId].job, store.steps[newId])
         == PendingCalls(old(store.runs[sourceId].job), UpTo(OrderBySeq(old(store.steps[sourceId])), fromSeq))
  {
    ghost var job, rows := store.runs[sourceId].job, store.steps[sourceId];
    ForkSucceeds(job, job.(id := newId), rows, fromSeq);
    ok := store.ForkRun(sourceId, newId, fromSeq);
    ghost var copied := UpTo(OrderBySeq(rows), fromSeq);
    assert copied != [] ==> copied[|copied| - 1].seqNo == |copied|;
  }

  lemma {:induction false} ForkCostsTheSame(job': Job, rows: seq<Row>, n: nat)
    requires n <= |rows|
    ensures TotalCost(ForkRows(job', rows)[..n]) == TotalCost(rows[..n])
  {
    if n > 0 {
      ForkCostsTheSame(job', rows, n - 1);
      assert ForkRows(job', rows)[..n][..n - 1] == ForkRows(job', rows)[..n - 1];
      assert rows[..n][..n - 1] == rows[..n - 1];
    }
  }

  /** A fork carries over the budget its source kept, so over any number of generations of forks no plan breaks the cap. */
  lemma ForkKeepsBudget(job': Job, rows: seq<Row>, n: nat)
    requires CapKept(job'.cap, rows) && n <= |rows|
    ensures CapKept(job'.cap, ForkRows(job', rows[..n]))
  {
    var copied := rows[..n];
    var forked := ForkRows(job', copied);
    if job'.cap.Some? {
      forall i | 0 <= i < n && forked[i].body.PlanStep?
        ensures TotalCost(forked[..i]) <= job'.cap.value && TotalCost(forked[..i + 1]) <= job'.cap.value
      {
        ForkCostsTheSame(job', copied, i);
        ForkCostsTheSame(job', copied, i + 1);
        assert copied[..i] == rows[..i] && copied[..i + 1] == rows[..i + 1] && rows[i].body.PlanStep?;
      }
    }
  }

  // ---------------------------------------------------------------------------
  // Replay
  // ---------------------------------------------------------------------------

  /** The output the ledger itself records: that of the last final step, else what the run says. */
  function RecordedOutput(rows: seq<Row>, otherwise: Option<Json>): Option<Json> {
    if rows == [] then otherwise
    else if rows[|rows| - 1].body.FinalStep? then Some(rows[|rows| - 1].body.output)
    else RecordedOutput(rows[..|rows| - 1], otherwise)
  }

  datatype StepKind = PlanKind | CallKind | ObservationKind | WaitKind | FinalKind | ErrorKind

  function KindOf(body: Body): StepKind {
    match body
    case PlanStep(_, _) => PlanKind
    case IntentStep(_) => CallKind
    case Observation(_, _, _) => ObservationKind
    case WaitStep(_) => WaitKind
    case FinalStep(_) => FinalKind
    case ErrorStep(_, _) => ErrorKind
  }

  /** One line of a trace: who did what, in which attempt. */
  datatype Entry = Entry(seqNo: int, kind: StepKind, callId: Option<string>, worker: Worker, attempt: nat)

  function CountKind(timeline: seq<Entry>, kind: StepKind): nat {
    if timeline == [] then 0
    else CountKind(timeline[..|timeline| - 1], kind) + if timeline[|timeline| - 1].kind == kind then 1 else 0
  }

  predicate KindsAreTypes(steps: seq<Row>, timeline: seq<Entry>) {
    && |timeline| == |steps|
    && forall i :: 0 <= i < |steps| ==>
         && (timeline[i].kind == PlanKind <==> steps[i].body.PlanStep?)
         && (timeline[i].kind == CallKind <==> steps[i].body.IntentStep?)
         && (timeline[i].kind == ObservationKind <==> steps[i].body.Observation?)
         && (timeline[i].kind == WaitKind <==> steps[i].body.WaitStep?)
         && (timeline[i].kind == FinalKind <==> steps[i].body.FinalStep?)
         && (timeline[i].kind == ErrorKind <==> steps[i].body.ErrorStep?)
  }

  /** Summarise a run from its ledger alone: the counters are those of the timeline it returns, and its plans those the
      runaway guard counts. */
  method ReplayTrace(run: RunRow, steps: seq<Row>)
    returns (output: Option<Json>, plans: nat, toolCalls: nat, observations: nat, timeline: seq<Entry>)
    ensures output == RecordedOutput(steps, run.output)
    ensures forall i :: IsLastFinal(steps, i) ==> output == Some(steps[i].body.output)
    ensures (forall i :: 0 <= i < |steps| ==> !steps[i].body.FinalStep?) ==> output == run.output
    ensures plans == |RowsOfKind(steps, PlanKind)| && toolCalls == |RowsOfKind(steps, CallKind)|
    ensures observations == |RowsOfKind(steps, ObservationKind)|
    ensures |timeline| == |steps|
    ensures KindsAreTypes(steps, timeline)
    ensures forall i :: 0 <= i < |steps| ==>
              timeline[i] == Entry(steps[i].seqNo, KindOf(steps[i].body), steps[i].callId, steps[i].worker, steps[i].attempt)
    ensures plans == CountKind(timeline, PlanKind) == PlanCount(steps)
    ensures toolCalls == CountKind(timeline, CallKind) && observations == CountKind(timeline, ObservationKind)
  {
    output, plans, toolCalls, observations, timeline := run.output, 0, 0, 0, [];
    for n := 0 to |steps|
      invariant output == RecordedOutput(steps[..n], run.output) && |timeline| == n
      invariant forall i :: 0 <= i < n ==>
                  timeline[i] == Entry(steps[i].seqNo, KindOf(steps[i].body), steps[i].callId, steps[i].worker,
                                       steps[i].attempt)
      invariant plans == CountKind(timeline, PlanKind) == PlanCount(steps[..n])
      invariant toolCalls == CountKind(timeline, CallKind) && observations == CountKind(timeline, ObservationKind)
    {
      assert steps[..n + 1][..n] == steps[..n];
      var s := steps[n];
      match s.body {
        case PlanStep(_, _) => plans := plans + 1;
        case IntentStep(_) => toolCalls := toolCalls + 1;
        case Observation(_, _, _) => observations := observations + 1;
        case FinalStep(o) => output := Some(o);
        case _ =>
      }
      ghost var before := timeline;
      timeline := timeline + [Entry(s.seqNo, KindOf(s.body), s.callId, s.worker, s.attempt)];
      assert timeline[..n] == before;
    }
    assert steps[..|steps|] == steps;
    OutputOfSteps(steps, run.output);
    KindsOfSteps(steps, timeline, PlanKind);
    KindsOfSteps(steps, timeline, CallKind);
    KindsOfSteps(steps, timeline, ObservationKind);
  }

  /** The last final step. */
  predicate IsLastFinal(steps: seq<Row>, i: int) {
    0 <= i < |steps| && steps[i].body.FinalStep? && forall j :: i < j < |steps| ==> !steps[j].body.FinalStep?
  }

  lemma {:induction false} OutputOfSteps(steps: seq<Row>, otherwise: Option<Json>)
    ensures forall i :: IsLastFinal(steps, i) ==> RecordedOutput(steps, otherwise) == Some(steps[i].body.output)
    ensures (forall i :: 0 <= i < |steps| ==> !steps[i].body.FinalStep?) ==>
              RecordedOutput(steps, otherwise) == otherwise
  {
    if steps != [] {
      var init := steps[..|steps| - 1];
      OutputOfSteps(init, otherwise);
      forall i | IsLastFinal(steps, i)
        ensures i < |init| ==> IsLastFinal(init, i)
      {
      }
    }
  }

  function RowsOfKind(steps: seq<Row>, kind: StepKind): set<nat> {
    set i: nat | i < |steps| && KindOf(steps[i].body) == kind
  }

  predicate SameKinds(steps: seq<Row>, timeline: seq<Entry>) {
    |timeline| == |steps| && forall i :: 0 <= i < |steps| ==> timeline[i].kind == KindOf(steps[i].body)
  }

  lemma {:induction false} KindsOfSteps(steps: seq<Row>, timeline: seq<Entry>, kind: StepKind)
    requires SameKinds(steps, timeline)
    ensures CountKind(timeline, kind) == |RowsOfKind(steps, kind)|
  {
    if steps != [] {
      var n := |steps| - 1;
      assert SameKinds(steps[..n], timeline[..n]);
      KindsOfSteps(steps[..n], timeline[..n], kind);
      assert RowsOfKind(steps, kind)
          == if KindOf(steps[n].body) == kind then RowsOfKind(steps[..n], kind) + {n} else RowsOfKind(steps[..n], kind);
      assert timeline[n].kind == KindOf(steps[n].body);
    }
  }

  lemma RecordedAtEnd(start: nat, db: Db, otherwise: Option<Json>)
    requires StatusOk(start, db) && db.run.status == Succeeded
    ensures RecordedOutput(db.rows, otherwise).Some?
    ensures db.run.output == Some(WrapOutput(RecordedOutput(db.rows, otherwise).value))
  {
  }

  /** Replaying a run that succeeded reconstructs its answer from the ledger: whatever the run row says is the recorded
      answer, wrapped where it is no object or array. */
  lemma ReplayReconstructsOutput(env: Env, now: Time, rows: seq<Row>, schedule: seq<Action>, otherwise: Option<Json>)
    requires StartOk(env.job, rows) && AllTimely(env, Enqueued(now, rows), schedule)
    requires Run(env, FULL, Enqueued(now, rows), schedule).db.run.status == Succeeded
    ensures var db := Run(env, FULL, Enqueued(now, rows), schedule).db;
            && RecordedOutput(db.rows, otherwise).Some?
            && db.run.output == Some(WrapOutput(RecordedOutput(db.rows, otherwise).value))
  {
    StatusTellsLedger(env, now, rows, schedule);
    RecordedAtEnd(|rows|, Run(env, FULL, Enqueued(now, rows), schedule).db, otherwise);
  }
}
