/** Claiming a run: the row-locked loop over the queue, and the compare-and-swap that has to pass for it. */
module Claims {
  import opened Values
  import opened Models
  import opened Protocol
  import opened Dispatches
  import opened Shared

  // ---------------------------------------------------------------------------
  // The row-locked path, over a whole queue
  // ---------------------------------------------------------------------------

  /** The first run in creation order that is runnable and not locked by another transaction. */
  function FirstRunnable(order: seq<string>, rows: map<string, RunRow>, locked: set<string>, asOf: Time): (r: Option<nat>)
    ensures r.Some? ==>
              && r.value < |order| && order[r.value] in rows && order[r.value] !in locked
              && Runnable(rows[order[r.value]], asOf)
              && forall i :: 0 <= i < r.value && order[i] in rows && order[i] !in locked ==> !Runnable(rows[order[i]], asOf)
    ensures r.None? ==> forall id :: id in order && id in rows && id !in locked ==> !Runnable(rows[id], asOf)
  {
    if order == [] then None
    else
      var n := |order| - 1;
      var earlier := FirstRunnable(order[..n], rows, locked, asOf);
      if earlier.Some? then earlier
      else if order[n] in rows && order[n] !in locked && Runnable(rows[order[n]], asOf) then Some(n)
      else None
  }

  /** `fuel` rounds: bury runs that are out of attempts, lease the first that is not. */
  function ClaimRounds(order: seq<string>, rows: map<string, RunRow>, locked: set<string>, asOf: Time,
                       worker: Worker, expiry: Time, maxAttempts: int, fuel: nat): (map<string, RunRow>, Option<string>)
  {
    if fuel == 0 then (rows, None)
    else match FirstRunnable(order, rows, locked, asOf)
      case None => (rows, None)
      case Some(i) =>
        var id := order[i];
        if rows[id].attempt >= maxAttempts then
          ClaimRounds(order, rows[id := Bury(rows[id])], locked, asOf, worker, expiry, maxAttempts, fuel - 1)
        else (rows[id := LeaseTo(rows[id], worker, expiry)], Some(id))
  }

  /** What a pass of at most `rounds` rounds may do to the runs. The run it claims is unlocked, runnable and has an attempt
      left, and is leased; any other is as it was, or was unlocked, runnable and out of attempts, and is dead. It comes back
      without a run only if every run it could have claimed is dead now, or it buried one in each round. */
  ghost predicate IsPass(order: seq<string>, was: map<string, RunRow>, now: map<string, RunRow>, locked: set<string>,
                         asOf: Time, worker: Worker, expiry: Time, maxAttempts: int, rounds: nat, claimed: Option<string>)
  {
    && now.Keys == was.Keys
    && (claimed.Some? ==>
          && var id := claimed.value;
             && id in order && id in was && id !in locked
             && Runnable(was[id], asOf) && was[id].attempt < maxAttempts
             && now[id] == was[id].(status := Leased, owner := Some(worker), expiry := Some(expiry),
                                    attempt := was[id].attempt + 1))
    && (forall id :: id in was && claimed != Some(id) && now[id] != was[id] ==>
          && id !in locked && Runnable(was[id], asOf) && was[id].attempt >= maxAttempts
          && now[id] == was[id].(status := Dead, owner := None, expiry := None, error := Some(Infra)))
    && (claimed.None? ==>
          || (forall id :: id in order && id in was && id !in locked && Runnable(was[id], asOf) ==> now[id].status == Dead)
          || |BuriedIn(was, now)| == rounds)
  }

  /** Runs that are dead now and were not. */
  function BuriedIn(rows: map<string, RunRow>, later: map<string, RunRow>): set<string> {
    set id | id in rows && id in later && later[id].status == Dead && rows[id].status != Dead
  }

  class RunQueue {
    /** Ids in order of creation. */
    var order: seq<string>
    var rows: map<string, RunRow>

    constructor (order: seq<string>, rows: map<string, RunRow>)
      ensures this.order == order && this.rows == rows
    {
      this.order, this.rows := order, rows;
    }

    /** One pass of the worker over the queue. Runs in `locked` are skipped, not waited for. */
    method ClaimNextRun(worker: Worker, asOf: Time, leaseSeconds: int, maxAttempts: int, locked: set<string>)
      returns (claimed: Option<string>)
      modifies this`rows
      ensures (rows, claimed)
           == ClaimRounds(order, old(rows), locked, asOf, worker, asOf + leaseSeconds, maxAttempts,
                          if maxAttempts + 2 > 0 then maxAttempts + 2 else 0)
      ensures IsPass(order, old(rows), rows, locked, asOf, worker, asOf + leaseSeconds, maxAttempts,
                     if maxAttempts + 2 > 0 then maxAttempts + 2 else 0, claimed)
    {
      var leaseUntil := asOf + leaseSeconds;
      var rounds: nat := if maxAttempts + 2 > 0 then maxAttempts + 2 else 0;
      ghost var outcome := ClaimRounds(order, rows, locked, asOf, worker, leaseUntil, maxAttempts, rounds);
      ClaimPass(order, rows, locked, asOf, worker, leaseUntil, maxAttempts, rounds);
      for n := 0 to rounds
        invariant ClaimRounds(order, rows, locked, asOf, worker, leaseUntil, maxAttempts, rounds - n) == outcome
      {
        var first := FirstRunnable(order, rows, locked, asOf);
        if first.None? {
          return None;
        }
        var id := order[first.value];
        if rows[id].attempt >= maxAttempts {
          rows := rows[id := Bury(rows[id])];
        } else {
          rows := rows[id := LeaseTo(rows[id], worker, leaseUntil)];
          return Some(id);
        }
      }
      return None;
    }
  }

  /** What a pass does to each run: the claimed one was runnable, unlocked, had an attempt left and is now leased to
      the worker; the others are as before, or were out of attempts and are dead. */
  lemma {:induction false} ClaimTouchesOnly(order: seq<string>, rows: map<string, RunRow>, locked: set<string>, asOf: Time,
                                            worker: Worker, expiry: Time, maxAttempts: int, fuel: nat, id: string)
    requires id in rows
    ensures var (rows', claimed) := ClaimRounds(order, rows, locked, asOf, worker, expiry, maxAttempts, fuel);
            && rows'.Keys == rows.Keys
            && (claimed == Some(id) ==>
                  && id !in locked && Runnable(rows[id], asOf) && rows[id].attempt < maxAttempts
                  && rows'[id] == LeaseTo(rows[id], worker, expiry) && rows'[id].attempt <= maxAttempts)
            && (claimed != Some(id) ==>
                  || rows'[id] == rows[id]
                  || (id !in locked && Runnable(rows[id], asOf) && rows[id].attempt >= maxAttempts
                      && rows'[id] == Bury(rows[id])))
  {
    if fuel > 0 {
      var first := FirstRunnable(order, rows, locked, asOf);
      if first.Some? && rows[order[first.value]].attempt >= maxAttempts {
        var dead := order[first.value];
        ClaimTouchesOnly(order, rows[dead := Bury(rows[dead])], locked, asOf, worker, expiry, maxAttempts, fuel - 1, id);
      }
    }
  }

  /** A pass comes back without a run only if it buried every run it could have claimed, or as many as it has rounds. */
  lemma {:induction false} NoneIsLeft(order: seq<string>, rows: map<string, RunRow>, locked: set<string>, asOf: Time,
                                      worker: Worker, expiry: Time, maxAttempts: int, fuel: nat)
    ensures var (rows', claimed) := ClaimRounds(order, rows, locked, asOf, worker, expiry, maxAttempts, fuel);
            && rows'.Keys == rows.Keys
            && (claimed.Some? ==> claimed.value in order && claimed.value in rows)
            && (claimed.None? ==>
                  || (forall id :: id in order && id in rows && id !in locked && Runnable(rows[id], asOf) ==>
                        rows'[id].status == Dead)
                  || |BuriedIn(rows, rows')| == fuel)
  {
    if fuel == 0 {
      assert BuriedIn(rows, rows) == {};
    } else {
      var first := FirstRunnable(order, rows, locked, asOf);
      if first.Some? && rows[order[first.value]].attempt >= maxAttempts {
        var dead := order[first.value];
        var next := rows[dead := Bury(rows[dead])];
        var rows' := ClaimRounds(order, next, locked, asOf, worker, expiry, maxAttempts, fuel - 1).0;
        NoneIsLeft(order, next, locked, asOf, worker, expiry, maxAttempts, fuel - 1);
        ClaimTouchesOnly(order, next, locked, asOf, worker, expiry, maxAttempts, fuel - 1, dead);
        assert BuriedIn(rows, rows') == BuriedIn(next, rows') + {dead} && dead !in BuriedIn(next, rows');
      }
    }
  }

  lemma ClaimPass(order: seq<string>, rows: map<string, RunRow>, locked: set<string>, asOf: Time,
                  worker: Worker, expiry: Time, maxAttempts: int, fuel: nat)
    ensures var (rows', claimed) := ClaimRounds(order, rows, locked, asOf, worker, expiry, maxAttempts, fuel);
            IsPass(order, rows, rows', locked, asOf, worker, expiry, maxAttempts, fuel, claimed)
  {
    var (rows', claimed) := ClaimRounds(order, rows, locked, asOf, worker, expiry, maxAttempts, fuel);
    NoneIsLeft(order, rows, locked, asOf, worker, expiry, maxAttempts, fuel);
    forall id | id in rows
      ensures claimed == Some(id) ==> Runnable(rows[id], asOf) && id !in locked && rows[id].attempt < maxAttempts
      ensures claimed == Some(id) ==> rows'[id] == LeaseTo(rows[id], worker, expiry)
      ensures claimed != Some(id) && rows'[id] != rows[id] ==>
                && id !in locked && Runnable(rows[id], asOf) && rows[id].attempt >= maxAttempts
                && rows'[id] == Bury(rows[id])
    {
      ClaimTouchesOnly(order, rows, locked, asOf, worker, expiry, maxAttempts, fuel, id);
    }
  }

  /** First come, first served: every run enqueued before the claimed one was locked, not runnable, or is now dead. */
  lemma {:induction false} ClaimIsInOrder(order: seq<string>, rows: map<string, RunRow>, locked: set<string>, asOf: Time,
                                          worker: Worker, expiry: Time, maxAttempts: int, fuel: nat, i: nat, k: nat)
    requires (forall n, m :: 0 <= n < m < |order| ==> order[n] != order[m]) && i < k < |order|
    requires order[i] in rows && order[k] in rows
    requires ClaimRounds(order, rows, locked, asOf, worker, expiry, maxAttempts, fuel).1 == Some(order[k])
    ensures var rows' := ClaimRounds(order, rows, locked, asOf, worker, expiry, maxAttempts, fuel).0;
            || order[i] in locked
            || !Runnable(rows[order[i]], asOf)
            || (order[i] in rows' && rows'[order[i]] == Bury(rows[order[i]]))
  {
    var first := FirstRunnable(order, rows, locked, asOf);
    if rows[order[first.value]].attempt >= maxAttempts {
      var dead := order[first.value];
      var next := rows[dead := Bury(rows[dead])];
      ClaimIsInOrder(order, next, locked, asOf, worker, expiry, maxAttempts, fuel - 1, i, k);
      ClaimTouchesOnly(order, next, locked, asOf, worker, expiry, maxAttempts, fuel - 1, order[i]);
    }
  }

  /** And a run is buried only on the way to the claimed one: it was enqueued before it. */
  lemma {:induction false} BuriedOnTheWay(order: seq<string>, rows: map<string, RunRow>, locked: set<string>, asOf: Time,
                                          worker: Worker, expiry: Time, maxAttempts: int, fuel: nat, k: nat, id: string)
    requires (forall n, m :: 0 <= n < m < |order| ==> order[n] != order[m]) && k < |order|
    requires ClaimRounds(order, rows, locked, asOf, worker, expiry, maxAttempts, fuel).1 == Some(order[k])
    requires var rows' := ClaimRounds(order, rows, locked, asOf, worker, expiry, maxAttempts, fuel).0;
             id in rows && id in rows' && id != order[k] && rows'[id] != rows[id]
    ensures id in order[..k]
  {
    var first := FirstRunnable(order, rows, locked, asOf);
    if rows[order[first.value]].attempt >= maxAttempts {
      var dead := order[first.value];
      var next := rows[dead := Bury(rows[dead])];
      NoneIsLeft(order, next, locked, asOf, worker, expiry, maxAttempts, fuel - 1);
      ClaimTouchesOnly(order, next, locked, asOf, worker, expiry, maxAttempts, fuel - 1, order[k]);
      if id == dead {
        assert first.value < k && order[..k][first.value] == id;
      } else {
        BuriedOnTheWay(order, next, locked, asOf, worker, expiry, maxAttempts, fuel - 1, k, id);
      }
    }
  }

  // ---------------------------------------------------------------------------
  // Compare and swap
  // ---------------------------------------------------------------------------

  /** What claimers hold was runnable when they read it, in every schedule. */
  lemma {:induction false} CandidatesStayOk(env: Env, w: World, schedule: seq<Action>)
    requires CandidatesOk(w.db)
    ensures CandidatesOk(Run(env, FULL, w, schedule).db)
  {
    if schedule != [] {
      CandidatesStayOk(env, w, schedule[..|schedule| - 1]);
      var before, a := Run(env, FULL, w, schedule[..|schedule| - 1]), schedule[|schedule| - 1];
      if Moves(before, a) {
        StepKeepsLooked(env, before.db, before.sessions[a.sid], a.sid, a.asOf, a.outcome);
        StepKeepsNow(env, before.db, before.sessions[a.sid], a.sid, a.asOf, a.outcome);
      }
    }
  }

  /** Refinement, up to the candidate being used up: whatever heartbeats, claims and handlers did since the candidate was
      read, a guarded update that finds its row is an atomic claim of a run runnable at that instant. */
  lemma SwapIsAtomicClaim(env: Env, w: World, worker: Worker, n: nat)
    requires CandidatesOk(w.db) && SwapWins(env, w.db, n)
    ensures w.db.looked[n].asOf <= w.db.now && Runnable(w.db.run, w.db.looked[n].asOf)
    ensures Next(env, FULL, w, SwapClaim(worker, n)) == Lease(env, UseUp(w, n), worker, w.db.looked[n].asOf)
  {
    assert Runnable(w.db.looked[n].row, w.db.looked[n].asOf);
  }

  /** It is the row-locked claim if and only if the run still has an attempt left: the guard does not look at it. */
  lemma SwapIsLockedClaimIff(env: Env, w: World, worker: Worker, n: nat)
    requires CandidatesOk(w.db) && SwapWins(env, w.db, n)
    ensures var w' := UseUp(w, n);
            Next(env, FULL, w, SwapClaim(worker, n)) == Next(env, FULL, w', Claim(worker, w.db.looked[n].asOf)) <==>
              w.db.run.attempt < env.maxAttempts
  {
    SwapIsAtomicClaim(env, w, worker, n);
  }

  /** With a candidate that is not stale it always is. */
  lemma FreshCandidateKeepsLimit(env: Env, w: World, worker: Worker, n: nat)
    requires n < |w.db.looked| && w.db.looked[n].row.attempt == w.db.run.attempt
    ensures !Overruns(env, w, SwapClaim(worker, n))
  {
  }

  /** No claimer of the schedule updates with a stale candidate. */
  predicate CandidatesFresh(env: Env, w: World, schedule: seq<Action>) {
    schedule == [] ||
    (CandidatesFresh(env, w, schedule[..|schedule| - 1])
     && var db, a := Run(env, FULL, w, schedule[..|schedule| - 1]).db, schedule[|schedule| - 1];
        a.SwapClaim? && a.n < |db.looked| ==> db.looked[a.n].row.attempt == db.run.attempt)
  }

  lemma {:induction false} FreshCandidatesNeverOverrun(env: Env, w: World, schedule: seq<Action>)
    requires CandidatesFresh(env, w, schedule)
    ensures NoOverruns(env, w, schedule)
  {
    if schedule != [] {
      var before, a := schedule[..|schedule| - 1], schedule[|schedule| - 1];
      FreshCandidatesNeverOverrun(env, w, before);
      if a.SwapClaim? && SwapWins(env, Run(env, FULL, w, before).db, a.n) {
        FreshCandidateKeepsLimit(env, Run(env, FULL, w, before), a.worker, a.n);
      }
    }
  }

  /** Stale candidates are the only way past the limit: without them no mix of row-locked and compare-and-swap claims
      claims a run more often than it allows. */
  lemma FreshCandidatesKeepLimit(env: Env, now: Time, rows: seq<Row>, schedule: seq<Action>)
    requires CandidatesFresh(env, Enqueued(now, rows), schedule)
    ensures Run(env, FULL, Enqueued(now, rows), schedule).db.run.attempt <= Limit(env)
  {
    FreshCandidatesNeverOverrun(env, Enqueued(now, rows), schedule);
    ClaimsBoundedIff(env, now, rows, schedule);
  }

  // ---------------------------------------------------------------------------
  // Two claimers that read the same row
  // ---------------------------------------------------------------------------

  /** The action writes this very expiry on the run. */
  predicate WritesExpiry(env: Env, w: World, a: Action, expiry: Time) {
    || (Moves(w, a) && w.sessions[a.sid].pc.LoopTop? && w.db.run.owner == w.sessions[a.sid].local.owner
        && a.asOf + env.leaseSeconds == expiry)
    || (a.Claim? && Leases(env, w, a) && a.asOf + env.leaseSeconds == expiry)
    || (a.SwapClaim? && Leases(env, w, a) && w.db.looked[a.n].asOf + env.leaseSeconds == expiry)
  }

  predicate NeverWritesExpiry(env: Env, w: World, schedule: seq<Action>, expiry: Time) {
    schedule == [] ||
    (NeverWritesExpiry(env, w, schedule[..|schedule| - 1], expiry)
     && !WritesExpiry(env, Run(env, FULL, w, schedule[..|schedule| - 1]), schedule[|schedule| - 1], expiry))
  }

  lemma OtherStepsWriteNoExpiry(env: Env, db: Db, s: Session, sid: nat, asOf: Time, outcome: Outcome)
    requires !s.pc.LoopTop?
    ensures var db' := StepSession(env, FULL, db, s, sid, asOf, outcome).0;
            db'.run.expiry == db.run.expiry || db'.run.expiry == None
  {
  }

  lemma StepWritesExpiry(env: Env, db: Db, s: Session, sid: nat, asOf: Time, outcome: Outcome)
    ensures var db' := StepSession(env, FULL, db, s, sid, asOf, outcome).0;
            || db'.run.expiry == db.run.expiry || db'.run.expiry == None
            || (s.pc.LoopTop? && db.run.owner == s.local.owner && db'.run.expiry == Some(asOf + env.leaseSeconds))
    ensures s.pc.LoopTop? && db.run.owner == s.local.owner ==>
              StepSession(env, FULL, db, s, sid, asOf, outcome).0.run.expiry == Some(asOf + env.leaseSeconds)
  {
    if !s.pc.LoopTop? {
      OtherStepsWriteNoExpiry(env, db, s, sid, asOf, outcome);
    }
  }

  /** A lease expiry appears on the run only by being written. */
  lemma ExpiryIsWritten(env: Env, w: World, a: Action, expiry: Time)
    ensures WritesExpiry(env, w, a, expiry) ==> Next(env, FULL, w, a).db.run.expiry == Some(expiry)
    ensures Next(env, FULL, w, a).db.run.expiry == Some(expiry) ==>
              WritesExpiry(env, w, a, expiry) || w.db.run.expiry == Some(expiry)
  {
    if Moves(w, a) {
      StepWritesExpiry(env, w.db, w.sessions[a.sid], a.sid, a.asOf, a.outcome);
    }
  }

  /** Does the guard of a claimer with this candidate hold at some point of the schedule? */
  ghost predicate HoldsAgain(env: Env, w: World, schedule: seq<Action>, row: RunRow) {
    exists n :: 0 <= n <= |schedule| && Unchanged(row, Run(env, FULL, w, schedule[..n]).db.run)
  }

  lemma {:induction false} ExpiryStaysAway(env: Env, w: World, schedule: seq<Action>, expiry: Time, n: nat)
    requires w.db.run.expiry != Some(expiry) && NeverWritesExpiry(env, w, schedule, expiry) && n <= |schedule|
    ensures Run(env, FULL, w, schedule[..n]).db.run.expiry != Some(expiry)
    decreases |schedule|
  {
    if schedule != [] {
      var before, a := schedule[..|schedule| - 1], schedule[|schedule| - 1];
      ExpiryStaysAway(env, w, before, expiry, |before|);
      assert before[..|before|] == before;
      ExpiryIsWritten(env, Run(env, FULL, w, before), a, expiry);
      if n < |schedule| {
        ExpiryStaysAway(env, w, before, expiry, n);
        assert before[..n] == schedule[..n];
      } else {
        assert schedule[..n] == schedule;
      }
    }
  }

  /** Two claimers that read the same row, leased or running, do not both win: once one has, the guard of the other
      fails in every continuation, as long as nobody writes the very expiry the candidate had again. */
  lemma SecondSwapLoses(env: Env, w: World, worker: Worker, n: nat, schedule: seq<Action>)
    requires CandidatesOk(w.db) && SwapWins(env, w.db, n) && w.db.looked[n].row.status != Queued && env.leaseSeconds >= 0
    requires var row := w.db.looked[n].row;
             row.expiry.Some? ==>
               NeverWritesExpiry(env, Next(env, FULL, w, SwapClaim(worker, n)), schedule, row.expiry.value)
    ensures !HoldsAgain(env, Next(env, FULL, w, SwapClaim(worker, n)), schedule, w.db.looked[n].row)
  {
    var row, w1 := w.db.looked[n].row, Next(env, FULL, w, SwapClaim(worker, n));
    assert Runnable(row, w.db.looked[n].asOf);
    SwapIsAtomicClaim(env, w, worker, n);
    forall m | 0 <= m <= |schedule|
      ensures !Unchanged(row, Run(env, FULL, w1, schedule[..m]).db.run)
    {
      ExpiryStaysAway(env, w1, schedule, row.expiry.value, m);
    }
  }

  /** Readings of a clock after the one the expiry was made from never make it again. */
  lemma {:induction false} LaterReadingsNeverWrite(env: Env, w: World, schedule: seq<Action>, expiry: Time)
    requires forall i :: 0 <= i < |schedule| && (schedule[i].Step? || schedule[i].Claim? || schedule[i].Look?) ==>
               schedule[i].asOf + env.leaseSeconds > expiry
    requires forall n :: 0 <= n < |w.db.looked| ==> w.db.looked[n].asOf + env.leaseSeconds > expiry
    ensures NeverWritesExpiry(env, w, schedule, expiry)
    ensures var db := Run(env, FULL, w, schedule).db;
            forall n :: 0 <= n < |db.looked| ==> db.looked[n].asOf + env.leaseSeconds > expiry
  {
    if schedule != [] {
      var before, a := schedule[..|schedule| - 1], schedule[|schedule| - 1];
      assert forall i :: 0 <= i < |before| ==> before[i] == schedule[i];
      LaterReadingsNeverWrite(env, w, before, expiry);
      var w' := Run(env, FULL, w, before);
      if Moves(w', a) {
        StepKeepsLooked(env, w'.db, w'.sessions[a.sid], a.sid, a.asOf, a.outcome);
      }
    }
  }

  /** An approval puts the run back into the queue. */
  predicate Requeues(w: World, a: Action) {
    a.Resolve? && w.db.run.status == ApprovalWait && LastPending(w.db.approvals).Some?
  }

  lemma StepNeverQueues(env: Env, db: Db, s: Session, sid: nat, asOf: Time, outcome: Outcome)
    requires db.run.status != Queued
    ensures StepSession(env, FULL, db, s, sid, asOf, outcome).0.run.status != Queued
  {
  }

  /** Nothing else does. */
  lemma OnlyApprovalsQueue(env: Env, w: World, a: Action)
    ensures Requeues(w, a) ==> Next(env, FULL, w, a).db.run.status == Queued && Next(env, FULL, w, a).db.run.expiry == None
    ensures w.db.run.status != Queued && Next(env, FULL, w, a).db.run.status == Queued ==> Requeues(w, a)
  {
    if Moves(w, a) && w.db.run.status != Queued {
      StepNeverQueues(env, w.db, w.sessions[a.sid], a.sid, a.asOf, a.outcome);
    }
  }

  ghost predicate Requeued(env: Env, w: World, schedule: seq<Action>) {
    exists k :: 0 <= k < |schedule| && Requeues(Run(env, FULL, w, schedule[..k]), schedule[k])
  }

  lemma {:induction false} QueuedWasRequeued(env: Env, w: World, schedule: seq<Action>)
    requires w.db.run.status != Queued && Run(env, FULL, w, schedule).db.run.status == Queued
    ensures Requeued(env, w, schedule)
  {
    var before, a := schedule[..|schedule| - 1], schedule[|schedule| - 1];
    if Run(env, FULL, w, before).db.run.status == Queued {
      QueuedWasRequeued(env, w, before);
      var k :| 0 <= k < |before| && Requeues(Run(env, FULL, w, before[..k]), before[k]);
      assert before[..k] == schedule[..k] && before[k] == schedule[k];
    } else {
      OnlyApprovalsQueue(env, Run(env, FULL, w, before), a);
      assert Requeues(Run(env, FULL, w, schedule[..|schedule| - 1]), schedule[|schedule| - 1]);
    }
  }

  lemma HoldsOnlyIfRequeued(env: Env, w: World, schedule: seq<Action>, row: RunRow)
    requires w.db.run.status != Queued && row.status == Queued && HoldsAgain(env, w, schedule, row)
    ensures Requeued(env, w, schedule)
  {
    var m :| 0 <= m <= |schedule| && Unchanged(row, Run(env, FULL, w, schedule[..m]).db.run);
    QueuedWasRequeued(env, w, schedule[..m]);
    var k :| 0 <= k < m && Requeues(Run(env, FULL, w, schedule[..m][..k]), schedule[..m][k]);
    assert schedule[..m][..k] == schedule[..k] && schedule[..m][k] == schedule[k];
  }

  lemma HoldsOnceRequeued(env: Env, w: World, schedule: seq<Action>, row: RunRow)
    requires row.status == Queued && row.expiry == None && Requeued(env, w, schedule)
    ensures HoldsAgain(env, w, schedule, row)
  {
    var k :| 0 <= k < |schedule| && Requeues(Run(env, FULL, w, schedule[..k]), schedule[k]);
    OnlyApprovalsQueue(env, Run(env, FULL, w, schedule[..k]), schedule[k]);
    assert schedule[..k + 1][..k] == schedule[..k];
    assert Unchanged(row, Run(env, FULL, w, schedule[..k + 1]).db.run);
  }

  /** For a row read queued it is different: after one claimer has won, the guard of the other holds again at some point
      of a schedule if and only if an approval has requeued the run in it. */
  lemma SecondSwapOfQueuedWinsIff(env: Env, w: World, worker: Worker, n: nat, schedule: seq<Action>)
    requires SwapWins(env, w.db, n) && w.db.looked[n].row.status == Queued && w.db.looked[n].row.expiry == None
    ensures var w1 := Next(env, FULL, w, SwapClaim(worker, n));
            HoldsAgain(env, w1, schedule, w.db.looked[n].row) <==> Requeued(env, w1, schedule)
  {
    var row, w1 := w.db.looked[n].row, Next(env, FULL, w, SwapClaim(worker, n));
    if HoldsAgain(env, w1, schedule, row) {
      HoldsOnlyIfRequeued(env, w1, schedule, row);
    }
    if Requeued(env, w1, schedule) {
      HoldsOnceRequeued(env, w1, schedule, row);
    }
  }

  // ---------------------------------------------------------------------------
  // The two loops, over one run
  // ---------------------------------------------------------------------------

  /** The last action claimed the run for `worker`, atomically, when it was runnable. */
  ghost predicate ClaimedLast(db: Database, worker: Worker, asOf: Time)
    requires db.Valid()
    reads db
  {
    && db.schedule != []
    && var before := db.history[|db.schedule| - 1];
       && asOf <= before.db.now && Runnable(before.db.run, asOf)
       && db.world.(db := db.world.db.(used := before.db.used)) == Lease(db.env, before, worker, asOf)
       && db.world.db.run == before.db.run.(status := Leased, owner := Some(worker), attempt := before.db.run.attempt + 1,
                                            expiry := Some(asOf + db.env.leaseSeconds))
  }

  /** A run that was read with no attempt left is dead after the update, unless its status moved in between. */
  predicate Buried(read: RunRow, before: RunRow, after: RunRow) {
    if before.status == read.status
    then after == before.(status := Dead, owner := None, expiry := None, error := Some(Infra))
    else after == before
  }

  /** The update of a claimer that holds candidate `n`, whatever happened since it was read. */
  method UpdateCandidate(db: Database, worker: Worker, n: nat) returns (won: bool)
    requires db.Valid() && CandidatesOk(db.start.db) && Held(db.world.db, n)
    modifies db
    ensures db.Valid() && |db.schedule| == |old(db.schedule)| + 1
    ensures old(db.schedule) <= db.schedule && old(db.history) <= db.history && db.world.db.now == old(db.world.db.now)
    ensures won <==> SwapWins(db.env, old(db.world.db), n)
    ensures old(db.world.db.looked[n]).row.attempt >= db.env.maxAttempts ==>
              Buried(old(db.world.db.looked[n]).row, old(db.world.db.run), db.world.db.run)
    ensures won ==> ClaimedLast(db, worker, old(db.world.db.looked[n].asOf))
  {
    won := SwapWins(db.env, db.world.db, n);
    if db.world.db.looked[n].row.attempt >= db.env.maxAttempts {
      db.Perform(SwapBury(n));
    } else {
      if won {
        db.IsRun(|db.schedule|);
        CandidatesStayOk(db.env, db.start, db.schedule);
        SwapIsAtomicClaim(db.env, db.world, worker, n);
      }
      db.Perform(SwapClaim(worker, n));
    }
  }

  /** Wait, and read the run if it is runnable at `now`. */
  method ReadCandidate(db: Database, now: Time) returns (found: bool, n: nat, ghost looked: nat)
    requires db.Valid() && CandidatesOk(db.start.db) && now <= db.world.db.now
    modifies db
    ensures db.Valid() && old(db.schedule) <= db.schedule && old(db.history) <= db.history
    ensures |old(db.schedule)| <= looked <= |db.schedule| && now <= db.world.db.now
    ensures found <==> Runnable(db.history[looked].db.run, now)
    ensures found ==> Held(db.world.db, n) && db.world.db.looked[n] == Candidate(db.history[looked].db.run, now)
  {
    ghost var before := |db.schedule|;
    db.Elapse();
    db.Advanced(before);
    looked := |db.schedule|;
    n := |db.world.db.looked|;
    found := Runnable(db.world.db.run, now);
    if found {
      db.IsRun(|db.schedule|);
      CandidatesStayOk(db.env, db.start, db.schedule);
      db.Perform(Look(now));
    }
  }

  /** One round of a claimer: the points of the history at which it looked at the run, and at which it made its update. */
  datatype Try = Try(looked: nat, updated: nat)

  /** A round without success: the run was runnable, but had no attempt left and was buried for it, or it had one and was
      moved before the update. */
  ghost predicate Lost(env: Env, history: seq<World>, asOf: Time, round: Try) {
    && round.looked <= round.updated && round.updated + 1 < |history|
    && var run, found := history[round.looked].db.run, history[round.updated].db.run;
       && Runnable(run, asOf)
       && if run.attempt >= env.maxAttempts then Buried(run, found, history[round.updated + 1].db.run)
          else found.status != run.status || found.expiry != run.expiry
  }

  /** These rounds, one after the other and none before `since`, were lost. */
  ghost predicate AllLost(env: Env, history: seq<World>, since: nat, asOf: Time, tries: seq<Try>) {
    && (forall i :: 0 <= i < |tries| ==> since <= tries[i].looked && Lost(env, history, asOf, tries[i]))
    && forall i, j :: 0 <= i < j < |tries| ==> tries[i].updated < tries[j].looked
  }

  /** The reason for coming back without the run: after the rounds that were lost the run was looked at once more and was
      not runnable, or there were as many as a claimer makes. */
  ghost predicate GaveUp(env: Env, history: seq<World>, since: nat, asOf: Time, tries: seq<Try>, last: nat) {
    && AllLost(env, history, since, asOf, tries)
    && (|tries| == (if env.maxAttempts + 2 > 0 then env.maxAttempts + 2 else 0)
        || (since <= last < |history| && !Runnable(history[last].db.run, asOf)
            && forall i :: 0 <= i < |tries| ==> tries[i].updated < last))
  }

  lemma OneMoreLost(env: Env, history: seq<World>, more: seq<World>, since: nat, asOf: Time, tries: seq<Try>, round: Try)
    requires AllLost(env, history, since, asOf, tries) && history <= more
    requires since <= round.looked && |history| <= round.looked + 1 && Lost(env, more, asOf, round)
    ensures AllLost(env, more, since, asOf, tries + [round])
  {
    LostStays(env, history, more, since, asOf, tries);
  }

  lemma LostStays(env: Env, history: seq<World>, more: seq<World>, since: nat, asOf: Time, tries: seq<Try>)
    requires AllLost(env, history, since, asOf, tries) && history <= more
    ensures AllLost(env, more, since, asOf, tries)
  {
    forall i | 0 <= i < |tries|
      ensures Lost(env, more, asOf, tries[i])
    {
      assert Lost(env, history, asOf, tries[i]);
    }
  }

  /** One round without row locks, with other sessions and handlers at work between the look and the update. */
  method TryToSwap(db: Database, worker: Worker, now: Time) returns (found: bool, won: bool, ghost round: Try)
    requires db.Valid() && CandidatesOk(db.start.db) && now <= db.world.db.now
    modifies db
    ensures db.Valid() && old(db.schedule) <= db.schedule && old(db.history) <= db.history && now <= db.world.db.now
    ensures |old(db.schedule)| <= round.looked < |db.history|
    ensures found <==> Runnable(db.history[round.looked].db.run, now)
    ensures won ==> found && |db.schedule| > |old(db.schedule)| && ClaimedLast(db, worker, now)
    ensures found && !won ==> Lost(db.env, db.history, now, round)
  {
    var n;
    ghost var looked;
    found, n, looked := ReadCandidate(db, now);
    round := Try(looked, looked);
    if !found {
      return false, false, round;
    }
    ghost var read := |db.schedule|;
    db.ElapseHolding(n);
    db.Advanced(read);
    round := Try(looked, |db.schedule|);
    won := UpdateCandidate(db, worker, n);
  }

  /** The compare-and-swap loop over one run. It wins only by an atomic claim of a run runnable at that instant, and goes on
      until it wins, finds the run not runnable, or has lost all its rounds. */
  method ClaimBySwap(db: Database, worker: Worker) returns (won: bool, ghost tries: seq<Try>, ghost last: nat)
    requires db.Valid() && CandidatesOk(db.start.db)
    modifies db
    ensures db.Valid() && old(db.schedule) <= db.schedule && old(db.history) <= db.history
    ensures won ==> |db.schedule| > |old(db.schedule)| && ClaimedLast(db, worker, old(db.world.db.now))
    ensures !won ==> GaveUp(db.env, db.history, |old(db.schedule)|, old(db.world.db.now), tries, last)
  {
    var now := db.world.db.now;
    tries, last := [], 0;
    var rounds: nat := if db.env.maxAttempts + 2 > 0 then db.env.maxAttempts + 2 else 0;
    for n := 0 to rounds
      invariant db.Valid() && old(db.schedule) <= db.schedule && old(db.history) <= db.history && now <= db.world.db.now
      invariant AllLost(db.env, db.history, |old(db.schedule)|, now, tries) && |tries| == n
    {
      ghost var history := db.history;
      var found;
      ghost var round;
      found, won, round := TryToSwap(db, worker, now);
      if won {
        return;
      }
      if !found {
        last := round.looked;
        LostStays(db.env, history, db.history, |old(db.schedule)|, now, tries);
        return;
      }
      OneMoreLost(db.env, history, db.history, |old(db.schedule)|, now, tries, round);
      tries := tries + [round];
    }
    won := false;
  }

  /** One round under a row lock: read and update are one transaction. */
  method TryLocked(db: Database, worker: Worker, now: Time) returns (found: bool, won: bool, ghost looked: nat)
    requires db.Valid() && now <= db.world.db.now
    modifies db
    ensures db.Valid() && old(db.schedule) <= db.schedule && old(db.history) <= db.history && now <= db.world.db.now
    ensures |old(db.schedule)| <= looked < |db.history|
    ensures found <==> Runnable(db.history[looked].db.run, now)
    ensures won ==>
              && found && |db.schedule| > |old(db.schedule)| && looked == |db.schedule| - 1
              && ClaimedLast(db, worker, now) && db.history[looked].db.run.attempt < db.env.maxAttempts
    ensures found && !won ==> Lost(db.env, db.history, now, Try(looked, looked))
  {
    ghost var before := |db.schedule|;
    db.Elapse();
    db.Advanced(before);
    looked := |db.schedule|;
    found, won := Runnable(db.world.db.run, now), false;
    if found {
      won := db.world.db.run.attempt < db.env.maxAttempts;
      db.Perform(Claim(worker, now));
    }
  }

  /** The row-locked loop over one run. It claims only a run with an attempt left, and goes on until it claims the run,
      finds it not runnable, or has buried it in each of its rounds. */
  method ClaimLocked(db: Database, worker: Worker) returns (won: bool, ghost tries: seq<Try>, ghost last: nat)
    requires db.Valid()
    modifies db
    ensures db.Valid() && old(db.schedule) <= db.schedule && old(db.history) <= db.history
    ensures won ==>
              && |db.schedule| > |old(db.schedule)| && ClaimedLast(db, worker, old(db.world.db.now))
              && db.history[|db.schedule| - 1].db.run.attempt < db.env.maxAttempts
    ensures !won ==>
              && GaveUp(db.env, db.history, |old(db.schedule)|, old(db.world.db.now), tries, last)
              && forall i :: 0 <= i < |tries| ==> tries[i].looked == tries[i].updated
  {
    var now := db.world.db.now;
    tries, last := [], 0;
    var rounds: nat := if db.env.maxAttempts + 2 > 0 then db.env.maxAttempts + 2 else 0;
    for n := 0 to rounds
      invariant db.Valid() && old(db.schedule) <= db.schedule && old(db.history) <= db.history && now <= db.world.db.now
      invariant AllLost(db.env, db.history, |old(db.schedule)|, now, tries) && |tries| == n
      invariant forall i :: 0 <= i < |tries| ==> tries[i].looked == tries[i].updated
    {
      ghost var history := db.history;
      var found;
      ghost var looked;
      found, won, looked := TryLocked(db, worker, now);
      if won {
        return;
      }
      if !found {
        last := looked;
        LostStays(db.env, history, db.history, |old(db.schedule)|, now, tries);
        return;
      }
      OneMoreLost(db.env, history, db.history, |old(db.schedule)|, now, tries, Try(looked, looked));
      tries := tries + [Try(looked, looked)];
    }
    won := false;
  }
}
