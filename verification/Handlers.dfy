/** The API handlers that write to a run while workers drive it. */
module Handlers {
  import opened Values
  import opened Models
  import opened Protocol
  import opened Shared

  /** Ask for a cancellation. A run that has ended stays as it is, one that waits in the queue fails at once, and for any
      other it is up to the worker. */
  method CancelRun(db: Database)
    requires db.Valid()
    modifies db
    ensures db.Valid() && db.schedule == old(db.schedule) + [Action.Cancel] && old(db.history) <= db.history
    ensures db.world == World(old(db.world.db).(run := db.world.db.run), old(db.world.sessions))
    ensures var run := old(db.world.db.run);
            db.world.db.run ==
              match run.status
              case Succeeded => run
              case Failed => run
              case Dead => run
              case Queued =>
                run.(cancel := true, status := Failed, error := Some(Cancelled),
                     output := Some(Obj(map["error" := Str("cancelled before start")])))
              case _ => run.(cancel := true)
  {
    var run := db.world.db.run;
    if !Terminal(run.status) {
      run := run.(cancel := true);
      if run.status == Queued {
        run := run.(status := Failed);
        run := run.(error := Some(Cancelled));
        run := run.(output := Some(ErrorResult(NOT_STARTED)));
      }
    }
    db.Handle(Action.Cancel, db.world.db.(run := run));
  }

  /** The newest approval that is still open. */
  predicate IsNewestOpen(approvals: seq<Approval>, n: int) {
    && 0 <= n < |approvals| && approvals[n].verdict == Verdict.Pending
    && forall i :: n < i < |approvals| ==> approvals[i].verdict != Verdict.Pending
  }

  /** Decide the newest open approval of a run that waits for one, and put the run back into the queue; refuse any other
      request. */
  method ResolveApproval(db: Database, approve: bool) returns (resolved: bool)
    requires db.Valid()
    modifies db
    ensures db.Valid() && db.schedule == old(db.schedule) + [Resolve(approve)] && old(db.history) <= db.history
    ensures resolved <==>
              && old(db.world.db.run).status == ApprovalWait
              && exists n :: IsNewestOpen(old(db.world.db.approvals), n)
    ensures !resolved ==> db.world == old(db.world)
    ensures resolved ==>
              && db.world.db.run == old(db.world.db.run).(status := Queued, owner := None, expiry := None)
              && db.world == World(old(db.world.db).(run := db.world.db.run, approvals := db.world.db.approvals),
                                   old(db.world.sessions))
    ensures var was, now := old(db.world.db.approvals), db.world.db.approvals;
            && |now| == |was|
            && forall i :: 0 <= i < |was| ==>
                 now[i] == if resolved && IsNewestOpen(was, i)
                           then Approval(was[i].call, if approve then Approved else Rejected) else was[i]
  {
    var d := db.world.db;
    var decision := if approve then Approved else Rejected;
    resolved := false;
    if d.run.status == ApprovalWait {
      var newest := LastPending(d.approvals);
      if newest.Some? {
        assert IsNewestOpen(d.approvals, newest.value);
        resolved := true;
        var approval := d.approvals[newest.value].(verdict := decision);
        var run := d.run.(status := Queued, owner := None, expiry := None);
        d := d.(approvals := d.approvals[newest.value := approval], run := run);
      }
    }
    db.Handle(Resolve(approve), d);
  }
}
