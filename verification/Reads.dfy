/** When a call is dispatched under an open approval. A worker that acts within its lease sees the approvals as they were
    when it first read the run: nobody can decide one while the run is being worked on. */
module Reads {
  import opened Values
  import opened Models
  import opened Rebuild
  import opened Protocol
  import opened LedgerInvariant
  import opened Blocks
  import opened Approvals
  import opened Timed
  import opened Redispatch
  import opened Shared

  /** Session `sid` reads the run for the first time. */
  predicate ReadsRun(w: World, a: Action, sid: nat) {
    Moves(w, a) && a.sid == sid && w.sessions[sid].pc.Claimed?
  }

  predicate HasRead(w: World, sid: nat) {
    sid < |w.sessions| && !w.sessions[sid].pc.Claimed?
  }

  /** It has, and goes on from there. */
  predicate AtWork(w: World, sid: nat) {
    HasRead(w, sid) && !w.sessions[sid].pc.Stopped? && !w.sessions[sid].pc.CommitParked? && Live(w.db, w.sessions[sid])
  }

  // ---------------------------------------------------------------------------
  // A session reads once
  // ---------------------------------------------------------------------------

  lemma ReadOnce(env: Env, w: World, a: Action, sid: nat)
    ensures HasRead(w, sid) || ReadsRun(w, a, sid) ==> HasRead(Next(env, FULL, w, a), sid)
    ensures HasRead(Next(env, FULL, w, a), sid) && !Next(env, FULL, w, a).sessions[sid].pc.Stopped? ==>
              HasRead(w, sid) || ReadsRun(w, a, sid)
  {
    if Moves(w, a) {
      StepLeavesClaimed(env, FULL, w.db, w.sessions[a.sid], a.sid, a.asOf, a.outcome);
    } else {
      MovesOrIdle(env, FULL, w, a);
    }
  }

  lemma {:induction false} ReadStays(env: Env, start: World, schedule: seq<Action>, r: nat, sid: nat)
    requires r < |schedule| && ReadsRun(Run(env, FULL, start, schedule[..r]), schedule[r], sid)
    ensures HasRead(Run(env, FULL, start, schedule), sid)
  {
    var before, a := schedule[..|schedule| - 1], schedule[|schedule| - 1];
    if r < |before| {
      assert before[..r] == schedule[..r];
      ReadStays(env, start, before, r, sid);
    } else {
      assert schedule[..r] == before;
    }
    ReadOnce(env, Run(env, FULL, start, before), a, sid);
  }

  lemma {:induction false} WasRead(env: Env, start: World, schedule: seq<Action>, sid: nat) returns (r: nat)
    requires start.sessions == [] && HasRead(Run(env, FULL, start, schedule), sid)
    requires !Run(env, FULL, start, schedule).sessions[sid].pc.Stopped?
    ensures r < |schedule| && ReadsRun(Run(env, FULL, start, schedule[..r]), schedule[r], sid)
  {
    var before, a := schedule[..|schedule| - 1], schedule[|schedule| - 1];
    var w := Run(env, FULL, start, before);
    ReadOnce(env, w, a, sid);
    if ReadsRun(w, a, sid) {
      r := |before|;
    } else {
      GoesOnFrom(env, w, a, sid);
      r := WasRead(env, start, before, sid);
      assert before[..r] == schedule[..r];
    }
  }

  lemma GoesOnFrom(env: Env, w: World, a: Action, sid: nat)
    requires HasRead(w, sid) && !Next(env, FULL, w, a).sessions[sid].pc.Stopped?
    ensures !w.sessions[sid].pc.Stopped?
  {
  }

  // ---------------------------------------------------------------------------
  // What it read still stands
  // ---------------------------------------------------------------------------

  /** A session that is at work after a step of its own was so before, and added no approval. */
  lemma OwnStepKeeps(env: Env, db: Db, s: Session, sid: nat, asOf: Time, outcome: Outcome)
    requires !s.pc.Claimed?
    ensures var (db', s') := StepSession(env, FULL, db, s, sid, asOf, outcome);
            !s'.pc.Stopped? && !s'.pc.CommitParked? ==>
              db'.approvals == db.approvals && !s.pc.Stopped? && !s.pc.CommitParked?
  {
    StepApprovals(env, FULL, db, s, sid, asOf, outcome);
  }

  lemma OthersKeep(env: Env, start: nat, w: World, a: Action, sid: nat)
    requires TimedInv(env, start, w) && Timely(env, w, a) && HasRead(w, sid) && !Moves(w, a)
    requires AtWork(Next(env, FULL, w, a), sid)
    ensures AtWork(w, sid) && Next(env, FULL, w, a).db.approvals == w.db.approvals
  {
    NextKeepsTimed(env, start, w, a);
    MovesOrIdle(env, FULL, w, a);
    NowAdvances(env, w, a);
  }

  lemma NextKeepsRead(env: Env, start: nat, w: World, a: Action, sid: nat)
    requires TimedInv(env, start, w) && Timely(env, w, a) && HasRead(w, sid) && AtWork(Next(env, FULL, w, a), sid)
    ensures AtWork(w, sid) && Next(env, FULL, w, a).db.approvals == w.db.approvals
  {
    if !Moves(w, a) {
      OthersKeep(env, start, w, a, sid);
    } else if w.sessions[a.sid].pc.Stopped? {
      StoppedStepIsIdle(env, FULL, w, a);
    } else {
      OnlyLatestActs(env, start, w, a);
      StepKeepsNow(env, w.db, w.sessions[a.sid], a.sid, a.asOf, a.outcome);
      if a.sid == sid {
        OwnStepKeeps(env, w.db, w.sessions[sid], sid, a.asOf, a.outcome);
      } else {
        assert Live(w.db, w.sessions[sid]);
      }
    }
  }

  /** Under timely leases a worker goes by the approvals it found when it read the run, until it parks or stops. */
  lemma {:induction false} ApprovalsStayAsRead(env: Env, now: Time, rows: seq<Row>, schedule: seq<Action>, r: nat, sid: nat)
    requires StartOk(env.job, rows) && AllTimely(env, Enqueued(now, rows), schedule)
    requires r < |schedule| && ReadsRun(Run(env, FULL, Enqueued(now, rows), schedule[..r]), schedule[r], sid)
    requires AtWork(Run(env, FULL, Enqueued(now, rows), schedule), sid)
    ensures Run(env, FULL, Enqueued(now, rows), schedule).db.approvals
         == Run(env, FULL, Enqueued(now, rows), schedule[..r]).db.approvals
  {
    var before, a := schedule[..|schedule| - 1], schedule[|schedule| - 1];
    var w := Run(env, FULL, Enqueued(now, rows), before);
    if r < |before| {
      assert before[..r] == schedule[..r];
      ReadStays(env, Enqueued(now, rows), before, r, sid);
      AlwaysTimed(env, now, rows, before);
      NextKeepsRead(env, |rows|, w, a, sid);
      ApprovalsStayAsRead(env, now, rows, before, r, sid);
    } else {
      assert schedule[..r] == before;
    }
  }

  // ---------------------------------------------------------------------------
  // Dispatches under an open approval
  // ---------------------------------------------------------------------------

  predicate IsOpen(w: World, call: ToolCall) {
    FindApproval(w.db.approvals, call.id) == Some(Verdict.Pending)
  }

  lemma AllTimelyUpTo(env: Env, start: World, schedule: seq<Action>, k: nat)
    requires AllTimely(env, start, schedule) && k <= |schedule|
    ensures AllTimely(env, start, schedule[..k])
    ensures k < |schedule| ==> Timely(env, Run(env, FULL, start, schedule[..k]), schedule[k])
  {
    if k < |schedule| - 1 {
      AllTimelyUpTo(env, start, schedule[..|schedule| - 1], k);
      assert schedule[..|schedule| - 1][..k] == schedule[..k];
    } else {
      assert schedule[..|schedule|] == schedule;
    }
  }

  /** Exactly: under timely leases a call is dispatched while its approval is open if and only if the worker that
      dispatches it first read the run while that approval was open. */
  lemma DispatchedOpenIff(env: Env, now: Time, rows: seq<Row>, schedule: seq<Action>, k: nat, call: ToolCall)
    requires StartOk(env.job, rows) && AllTimely(env, Enqueued(now, rows), schedule) && k < |schedule|
    requires DispatchesKey(env, Run(env, FULL, Enqueued(now, rows), schedule[..k]), schedule[k], KeyOf(env.job, call))
    ensures IsOpen(Run(env, FULL, Enqueued(now, rows), schedule[..k]), call) <==>
              exists r: nat ::
                && r < k && ReadsRun(Run(env, FULL, Enqueued(now, rows), schedule[..r]), schedule[r], schedule[k].sid)
                && IsOpen(Run(env, FULL, Enqueued(now, rows), schedule[..r]), call)
  {
    var start, before, sid := Enqueued(now, rows), schedule[..k], schedule[k].sid;
    AllTimelyUpTo(env, start, schedule, k);
    assert AtWork(Run(env, FULL, start, before), sid);
    forall r: nat | r < k && ReadsRun(Run(env, FULL, start, schedule[..r]), schedule[r], sid)
      ensures Run(env, FULL, start, before).db.approvals == Run(env, FULL, start, schedule[..r]).db.approvals
    {
      assert before[..r] == schedule[..r];
      ApprovalsStayAsRead(env, now, rows, before, r, sid);
    }
    var r := WasRead(env, start, before, sid);
    assert before[..r] == schedule[..r];
  }
}
