/** The three tables a run lives in, and the unique constraints on them. */
module Models {
  import opened Values

  type Time = int
  type Worker = string

  datatype Status = Queued | Leased | Running | Paused | ApprovalWait | Succeeded | Failed | Dead

  predicate Terminal(status: Status) {
    status == Succeeded || status == Failed || status == Dead
  }

  datatype ErrorClass = Infra | Budget | Cancelled

  /** Keys of ledger rows. `Call` stands for the digest of run id, call id, name and arguments, taken to be
      injective; `Intent` for that digest with a suffix, so it is never itself a digest. */
  datatype Key = Call(run: string, call: ToolCall) | Intent(of: Key)

  /** The columns of `runs` that change after creation. */
  datatype RunRow = RunRow(
    status: Status,
    cursor: nat,
    owner: Option<Worker>,
    expiry: Option<Time>,
    attempt: nat,
    cancel: bool,
    error: Option<ErrorClass>,
    output: Option<Json>)

  /** Type and payload of a ledger step. */
  datatype Body =
    | PlanStep(content: string, calls: seq<ToolCall>)
    | IntentStep(call: ToolCall)
    | Observation(id: string, name: string, result: Json)
    | WaitStep(call: ToolCall)
    | FinalStep(output: Json)
    | ErrorStep(class_: ErrorClass, detail: string)

  datatype Row = Row(
    seqNo: int,
    body: Body,
    callId: Option<string>,
    key: Option<Key>,
    cost: int,
    worker: Worker,
    attempt: nat)

  datatype Verdict = Pending | Approved | Rejected

  /** A request for approval of a call, and what was decided. One row per call id. */
  datatype Approval = Approval(call: ToolCall, verdict: Verdict)

  // ---------------------------------------------------------------------------
  // Unique constraints
  // ---------------------------------------------------------------------------

  /** Which unique constraints of `run_steps` are in force. */
  datatype Schema = Schema(keyUnique: bool)

  const FULL := Schema(true)
  const SEQ_ONLY := Schema(false)

  predicate SeqFree(rows: seq<Row>, seqNo: int) {
    forall i :: 0 <= i < |rows| ==> rows[i].seqNo != seqNo
  }

  predicate KeyFree(rows: seq<Row>, key: Option<Key>) {
    key.None? || forall i :: 0 <= i < |rows| ==> rows[i].key != key
  }

  /** Would the table accept this insert? */
  predicate Accepts(schema: Schema, rows: seq<Row>, row: Row) {
    SeqFree(rows, row.seqNo) && (schema.keyUnique ==> KeyFree(rows, row.key))
  }

  predicate HasApproval(approvals: seq<Approval>, callId: string) {
    exists i :: 0 <= i < |approvals| && approvals[i].call.id == callId
  }

  /** The approval of a call, if one was recorded. */
  function FindApproval(approvals: seq<Approval>, callId: string): (r: Option<Verdict>)
    ensures r.None? <==> !HasApproval(approvals, callId)
    ensures r.Some? ==> exists i :: 0 <= i < |approvals| && approvals[i].call.id == callId && approvals[i].verdict == r.value
  {
    if approvals == [] then None
    else if approvals[0].call.id == callId then Some(approvals[0].verdict)
    else
      var rest := FindApproval(approvals[1..], callId);
      assert forall i :: 0 <= i < |approvals[1..]| ==> approvals[1..][i] == approvals[i + 1];
      assert HasApproval(approvals, callId) ==> HasApproval(approvals[1..], callId) by {
        if HasApproval(approvals, callId) {
          var i :| 0 <= i < |approvals| && approvals[i].call.id == callId;
          assert approvals[1..][i - 1].call.id == callId;
        }
      }
      rest
  }

  /** Rows in increasing order of seq, as every read of the ledger asks for. */
  function OrderBySeq(rows: seq<Row>): seq<Row> {
    if rows == [] then [] else Insert(OrderBySeq(rows[..|rows| - 1]), rows[|rows| - 1])
  }

  function Insert(sorted: seq<Row>, row: Row): seq<Row> {
    if sorted == [] || sorted[|sorted| - 1].seqNo <= row.seqNo then sorted + [row]
    else Insert(sorted[..|sorted| - 1], row) + [sorted[|sorted| - 1]]
  }

  /** Rows are numbered 1, 2, 3, ... in the order they were inserted. */
  ghost predicate GapFree(rows: seq<Row>) {
    forall i :: 0 <= i < |rows| ==> rows[i].seqNo == i + 1
  }

  lemma {:induction false} OrderBySeqIsIdentity(rows: seq<Row>)
    requires GapFree(rows)
    ensures OrderBySeq(rows) == rows
  {
    if rows != [] {
      var init, last := rows[..|rows| - 1], rows[|rows| - 1];
      OrderBySeqIsIdentity(init);
      InsertAtEnd(init, last);
      assert init + [last] == rows;
    }
  }

  lemma InsertAtEnd(sorted: seq<Row>, row: Row)
    requires sorted == [] || sorted[|sorted| - 1].seqNo <= row.seqNo
    ensures Insert(sorted, row) == sorted + [row]
  {
  }
}
