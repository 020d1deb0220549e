/** The event stream: a reader that polls the ledger while workers append to it. */
module Stream {
  import opened Values
  import opened Models
  import opened Protocol
  import opened LedgerInvariant
  import opened Timed
  import opened Shared

  /** Rows after `lastSeq`, as the tail query asks for them. */
  function After(rows: seq<Row>, lastSeq: int): seq<Row> {
    if rows == [] then []
    else
      var before := After(rows[..|rows| - 1], lastSeq);
      if rows[|rows| - 1].seqNo > lastSeq then before + [rows[|rows| - 1]] else before
  }

  lemma {:induction false} AfterIsSuffix(rows: seq<Row>, lastSeq: nat)
    requires GapFree(rows)
    ensures After(rows, lastSeq) == if lastSeq <= |rows| then rows[lastSeq..] else []
  {
    if rows != [] {
      var init := rows[..|rows| - 1];
      AfterIsSuffix(init, lastSeq);
      if lastSeq < |rows| {
        assert init[lastSeq..] + [rows[|rows| - 1]] == rows[lastSeq..];
      }
    }
  }

  predicate Closes(status: Status) {
    Terminal(status) || status == ApprovalWait
  }

  class EventStream {
    var lastSeq: int
    var emitted: seq<Row>
    var closed: Option<Status>

    constructor ()
      ensures lastSeq == 0 && emitted == [] && closed == None
    {
      lastSeq, emitted, closed := 0, [], None;
    }

    /** Send the rows of one poll, then the status if it ends the stream. */
    method Send(status: Status, steps: seq<Row>)
      modifies this
      ensures emitted == old(emitted) + steps
      ensures lastSeq == if steps == [] then old(lastSeq) else steps[|steps| - 1].seqNo
      ensures closed == if status in {Succeeded, Failed, Dead, ApprovalWait} then Some(status) else old(closed)
    {
      for n := 0 to |steps|
        invariant emitted == old(emitted) + steps[..n]
        invariant lastSeq == if n == 0 then old(lastSeq) else steps[n - 1].seqNo
        invariant closed == old(closed)
      {
        lastSeq := steps[n].seqNo;
        emitted := emitted + [steps[n]];
      }
      if Closes(status) {
        closed := Some(status);
      }
    }

    /** One poll: read the status, and later the steps. Workers may append before and in between. */
    method Poll(db: Database) returns (ghost seen: nat)
      requires db.Started() && emitted <= db.world.db.rows && lastSeq == |emitted| && closed == None
      modifies this, db
      ensures db.Started() && old(db.schedule) <= db.schedule && old(db.history) <= db.history
      ensures |old(db.schedule)| <= seen <= |db.schedule|
      ensures emitted == db.world.db.rows && lastSeq == |emitted|
      ensures var status := db.history[seen].db.run.status;
              closed == if status in {Succeeded, Failed, Dead, ApprovalWait} then Some(status) else None
    {
      ghost var sent := |db.schedule|;
      db.Elapse();
      db.Grew(sent);
      var status := db.world.db.run.status;
      seen := |db.schedule|;
      db.Elapse();
      db.Grew(seen);
      OrderBySeqIsIdentity(db.world.db.rows);
      AfterIsSuffix(db.world.db.rows, lastSeq);
      Send(status, After(OrderBySeq(db.world.db.rows), lastSeq));
      assert emitted == db.world.db.rows;
    }

    /** Poll until the run closes the stream or the client goes away after `patience` polls. Whatever the workers do, the
        stream has sent a prefix of the ledger, each step once and in order, and after its last poll all of it; if it
        closed on a terminal status and leases were timely, nothing can follow. `polls` are the points of the history at
        which the status was read: the stream closes at the first that closes it, and at no other. */
    method EventGen(db: Database, patience: nat) returns (ghost polls: seq<nat>)
      requires db.Started()
      requires lastSeq == 0 && emitted == [] && closed == None
      modifies this, db
      ensures db.Started() && old(db.schedule) <= db.schedule && old(db.history) <= db.history
      ensures emitted <= db.world.db.rows && (polls != [] ==> emitted == db.world.db.rows)
      ensures AllTimely(db.env, db.start, db.schedule) && closed.Some? && Terminal(closed.value) ==>
                db.world.db.run.status == closed.value
      ensures |polls| <= patience && (closed.None? ==> |polls| == patience)
      ensures Polled(db.history, |old(db.schedule)|, polls, closed)
    {
      polls := [];
      for n := 0 to patience
        invariant db.Started() && old(db.schedule) <= db.schedule && old(db.history) <= db.history
        invariant emitted <= db.world.db.rows && lastSeq == |emitted| && closed == None
        invariant |polls| == n && (n > 0 ==> emitted == db.world.db.rows)
        invariant Polled(db.history, |old(db.schedule)|, polls, None)
        invariant polls != [] ==> polls[n - 1] <= |db.schedule|
      {
        ghost var before := db.history;
        ghost var seen := Poll(db);
        OneMorePoll(before, db.history, |old(db.schedule)|, polls, seen, closed);
        polls := polls + [seen];
        if closed.Some? {
          StaysClosed(db, seen);
          return;
        }
      }
    }
  }

  /** Polls at these points of a history, in order and none before `start`, closed the stream: the last one, if it did, and
      with the status the run had. */
  predicate Polled(history: seq<World>, start: nat, polls: seq<nat>, closed: Option<Status>) {
    && (forall i :: 0 <= i < |polls| ==> start <= polls[i] < |history|)
    && (forall i, j :: 0 <= i < j < |polls| ==> polls[i] <= polls[j])
    && (forall i :: 0 <= i < |polls| - 1 ==>
          history[polls[i]].db.run.status !in {Succeeded, Failed, Dead, ApprovalWait})
    && match closed
       case None =>
         polls != [] ==> history[polls[|polls| - 1]].db.run.status !in {Succeeded, Failed, Dead, ApprovalWait}
       case Some(status) =>
         && polls != [] && status == history[polls[|polls| - 1]].db.run.status
         && status in {Succeeded, Failed, Dead, ApprovalWait}
  }

  lemma OneMorePoll(history: seq<World>, more: seq<World>, start: nat, polls: seq<nat>, seen: nat, closed: Option<Status>)
    requires Polled(history, start, polls, None) && history <= more && start < |history| <= seen + 1 <= |more|
    requires var status := more[seen].db.run.status;
             closed == if status in {Succeeded, Failed, Dead, ApprovalWait} then Some(status) else None
    ensures Polled(more, start, polls + [seen], closed)
  {
    assert forall i :: 0 <= i < |polls| ==> more[polls[i]] == history[polls[i]];
  }

  lemma StaysClosed(db: Database, seen: nat)
    requires db.Started() && seen <= |db.schedule|
    ensures AllTimely(db.env, db.start, db.schedule) && Terminal(db.history[seen].db.run.status) ==>
              db.world.db.run.status == db.history[seen].db.run.status
  {
    db.IsRun(seen);
    if AllTimely(db.env, db.start, db.schedule) && Terminal(db.history[seen].db.run.status) {
      NothingFollowsTerminal(db.env, db.start, db.schedule[..seen], db.schedule);
    }
  }

  // ---------------------------------------------------------------------------
  // The ledger under the reader
  // ---------------------------------------------------------------------------

  /** Once a terminal status was read, a timely schedule adds nothing. */
  lemma {:induction false} NothingFollowsTerminal(env: Env, start: World, schedule: seq<Action>, later: seq<Action>)
    requires start == Enqueued(start.db.now, start.db.rows) && StartOk(env.job, start.db.rows) && schedule <= later
    requires AllTimely(env, start, later) && Terminal(Run(env, FULL, start, schedule).db.run.status)
    ensures var w, w' := Run(env, FULL, start, schedule), Run(env, FULL, start, later);
            w'.db.run == w.db.run && w'.db.rows == w.db.rows
    decreases |later|
  {
    if |schedule| < |later| {
      var before := later[..|later| - 1];
      NothingFollowsTerminal(env, start, schedule, before);
      AlwaysTimed(env, start.db.now, start.db.rows, before);
      TerminalStays(env, |start.db.rows|, Run(env, FULL, start, before), later[|later| - 1]);
    } else {
      assert schedule == later;
    }
  }
}
