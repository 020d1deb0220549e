# Verification of the Avatar durable execution engine

Avatar runs agents whose every decision is a row of an append-only ledger in a database. A worker claims a run, rebuilds
its state from the ledger, asks the model for a plan or executes the calls the last plan asked for, and commits one step
at a time; when it dies, another worker claims the run and goes on. This project models that engine and proves what its
ledger guarantees: for every interleaving of any number of workers and API requests, with crashes, stalls and expired
leases in between.

`dafny verify dfyconfig.toml` checks everything. No proof relies on automatic induction: with `--manual-lemma-induction` the
same lemmas verify.

## How it is modelled

**One run, many sessions.** `Protocol` is a transition system over the rows of one run: its row in `runs`, its
`run_steps`, its `approvals`, a clock, and a log of tool dispatches kept as history. A *session* is one claim followed by
one drive of the run. It has a private copy of the run row, a snapshot of the ledger, and a program counter; each of its
steps is one committed transaction, one read, or one dispatch. A *schedule* is any finite sequence of actions: steps of
any session, crashes, claims (row-locked, or by compare-and-swap: a look at the run and, any time later, one guarded
update), cancellations, approvals, time. `Run` folds a schedule; theorems quantify over all schedules.

**Fresh and forked.** A run is enqueued with a ledger: the empty one, or the copy of a prefix. Theorems quantify over every
starting ledger that satisfies `LedgerInvariant.StartOk`: numbered without gaps, no key twice, each row of the form the
rows before it call for. That covers the empty ledger and every fork of a run in which a call id determines the call
(`Fork.ForkSucceeds`, `Fork.ForkJustifiedRun`). A fork of a run that reused an id for another call may be accepted too
(`Fork.ForkAcceptedIff`); its copied keys may then belong to other calls, and the theorems do not speak of it.

**The code.** `Workers.Executor` is `execute_run` and what it calls, as loops over mutable state, with everybody else
acting before every transaction. Each of its transactions must be the session's next step in the protocol
(`Shared.Database.Transact` requires it), so what holds for every schedule holds for the loops. The other imperative parts
of the source (state rebuilding, claiming, forking, replaying, streaming, API handlers, token bucket, side-effect store) are
methods and classes too, proved against the functions the lemmas are about.

**Where a session stands.** The program counters of `Protocol.Pc` and the code they stand for:

| counter | code |
|---|---|
| `Claimed`, `Loaded` | avatar/engine/worker.py:167-172, avatar/engine/runtime.py:173-179 |
| `LoopTop`, `CheckCancel`, `LoadLedger` | avatar/engine/runtime.py:183-214 |
| `CommitPlan`, `CommitFinal`, `CommitSucceeded` | avatar/engine/runtime.py:216-235 |
| `NextCall` | avatar/engine/runtime.py:259-277 |
| `CommitWait`, `CommitParked` | avatar/engine/runtime.py:278-290 |
| `CommitIntent`, `Dispatch`, `CommitObservation` | avatar/engine/runtime.py:268-355 |
| `CommitError`, `CommitFailed` | avatar/engine/runtime.py:397-411 |

**Decisions.**
- Model function, policy and tools are parameters (`Env`); how a dispatch ends is chosen by the schedule. A tool that
  fails may or may not have done its work first.
- An insert the unique constraints reject rolls back and ends the session; the handler at avatar/engine/runtime.py:241-247
  cannot commit on the failed transaction. Nothing is written.
- Writes of the run row go through the object mapper, which writes only the attributes that differ from the copy it
  loaded (`Protocol.Flush`). After the guarded update of a heartbeat the new expiry counts as loaded.
- Clock readings are taken when the code takes them and may be old by the time they are used (`asOf`).
- API handlers are atomic.
- Keys are abstract: the key of a call is the call and its run, the key of an intent is marked as one. `Idempotency` shows
  when the text that is hashed justifies that: no colon in run id, call id and tool name, and no collision of the digest.
- `budget_used_cents` is recomputed from the ledger at every pass, so the model keeps no copy of it.
- Costs are integers, and time is an integer in the engine and a real in the token bucket.
- A dispatch may also end in an exception that is no tool error; the engine then fails the run.
- A *timely* schedule is one in which a session acts only before the expiry it last wrote, the reload after its claim
  included, and a compare-and-swap that buries a leased run finds the lease it has seen. The second half follows from the
  first as long as no claim retakes a leased run past the limit on attempts (`Timed.PunctualIsTimely`). The first tier of
  results does not assume timely schedules; the second (`Timed`, the last clause of `Stream`) does.
- A *clean read* is a worker's first read of the run while no approval of it is open.

## Results

Without any assumption on leases: every plan on the ledger is the model's answer to exactly the rows before it; sessions
do not interleave; the key index never has to fire unless a plan repeats a call; observations follow their plan one for
one and each was produced by a dispatch under its own key; plans and costs stay within their limits; dispatches are
preceded by their intent and bounded over the run's whole life, and the bound is reached; every error step has a cause in
the rows before it; a cancellation stops planning; every infinite schedule runs out of work; crashes leave no trace in what
is decided, and whatever is decided is also decided by a schedule in which nobody crashes; each drive of a run ends, in one
of four ways. With timely leases: at most one session can act, statuses say what the ledger says, terminal is final, no run
is stuck, no call is dispatched after its observation, a guarded call is dispatched only if approved, a closed stream has
sent the whole ledger. At the end, the refund demo refunds once.

Where a claim of the documentation fails, `Windows` and `Races` have a schedule that breaks it, built step by step with
`Paths`, and a theorem says exactly when it fails:

| claim | fails in | exactly when |
|---|---|---|
| a worker without a lease commits nothing | Windows.DisplacedWorkerCommits | LedgerInvariant.AcceptedIsCurrent |
| terminal is final, no run is stuck | Windows.StaleWorkerReopensRun | Windows.TerminalChangesIff, Windows.StuckForeverIff |
| at-most-once dispatch | Windows.CrashRedispatches | Redispatch.DispatchedTwiceIff, Redispatch.AtMostOnceIff |
| only approved calls are dispatched | Windows.OpenApprovalIsDispatched | Reads.DispatchedOpenIff, Windows.DecideExecutesUnlessRejected |
| what was approved is what is dispatched | Races.OtherCallIsDispatched | Consent.DispatchedUnderOwnApprovalIff |
| one of two claimers wins | Races.BothSwapsWin | Claims.SecondSwapOfQueuedWinsIff |
| at most max_attempts attempts | Races.BothSwapsWin | Dispatches.ClaimsBoundedIff, Claims.SwapIsLockedClaimIff |
| a fork short-circuits copied calls | Fork.ReusedIdLosesCall | Fork.ForkKeepsPendingIff |
| any prefix can be forked | Fork.ReusedIdForbidsFork | Fork.ForkAcceptedIff |

**Where code and documentation differ**, the model follows the code:
- docs/AVATAR.md:315-328 says that a worker that has lost its lease cannot commit a step or a terminal status. It can: the
  heartbeat is checked once per pass, the commits are not guarded (`Windows.DisplacedWorkerCommits`,
  `Windows.StaleWorkerReopensRun`). What protects the ledger is `UNIQUE(run_id, seq)` with the private cursor
  (`LedgerInvariant.AcceptedIsCurrent`, an if-and-only-if).
- docs/AVATAR.md:291-292 says that at most one worker is permitted to commit at any instant. That needs timely leases
  (`Timed.MutualExclusion`).
- docs/AVATAR.md:373-374 and avatar/engine/idempotency.py:11-13 promise at-most-once dispatch. A call is dispatched more
  than once if and only if a session retries it, or takes it over from another that dispatched it with a snapshot that
  lacks the observation (`Redispatch.DispatchedTwiceIff`); nothing the engine does depends on what was dispatched
  (`Redispatch.NothingDependsOnLog`). A call first in line is dispatched at most once in every schedule if and only if the
  settings allow the run no second attempt and the tool no retry (`Redispatch.AtMostOnceIff`). What happens at most once
  is the record, and the effect if the tool honours the key.
- The comment at avatar/engine/runtime.py:299 says that only approved calls fall through to dispatch. So do calls whose
  approval is still open (`Windows.DecideExecutesUnlessRejected`, `Windows.OpenApprovalIsDispatched`): under timely leases
  exactly those whose worker first read the run while that approval was open (`Reads.DispatchedOpenIff`). A fork asks again
  for every guarded call it still owes, whatever intents it copied, since approvals are not copied; but if it was copied
  in the middle of a guarded call, a worker that was overtaken can dispatch that call while the new approval is open
  (`Races.OvertakenWorkerDispatches`).
- The approval of a call is looked up by its id (avatar/engine/runtime.py:388-394). If a plan reuses an id, another call
  runs under it (`Races.OtherCallIsDispatched`); if ids determine calls, a human approved the very call that runs
  (`Consent.TimelyApprovalItself`).
- avatar/engine/worker.py:68-69 says that a run at its attempt limit is buried. On the compare-and-swap path only the
  candidate's attempt is tested, and a candidate can be stale (`Races.BothSwapsWin`); with one that is not, the limit holds
  (`Claims.FreshCandidatesKeepLimit`). avatar/engine/worker.py:65 promises an atomic lease; each lease is
  (`Claims.SwapIsAtomicClaim`), but two claimers that read the same row may both get one.
- avatar/engine/replay.py:18-20 says that recomputed keys let a fork short-circuit copied calls. With reused ids it may
  take one call's answer for another's (`Fork.ReusedIdLosesCall`), or the copy itself fails (`Fork.ReusedIdForbidsFork`).

## Model

| member | source | states |
|---|---|---|
| Models.FindApproval | avatar/engine/runtime.py:388-394 | the approval of a call is found exactly when one was recorded, and its verdict is that of a recorded row |
| Models.OrderBySeqIsIdentity | avatar/engine/runtime.py:78-84 | on a gap-free ledger, reading in order of seq is reading in order of insertion |
| Rebuild.RebuildState | avatar/engine/runtime.py:87-128 | the state handed to the model holds the input, then one message for each plan and each observation, in the order of the rows, with its calls or its result; pending are the calls of the last plan, unless a final step followed, that no observation row has the key of |
| Rebuild.NotObserved | avatar/engine/runtime.py:122-126 | the comprehension keeps the calls whose key was not seen, in order |
| Rebuild.FoldAppend | avatar/engine/runtime.py:98-120 | what one more row does to last plan, observed keys, plan count, cost and messages |
| Rebuild.UnobservedTwice | avatar/engine/runtime.py:122-126 | filtering a snapshot's pending calls by a longer ledger equals filtering the plan by the longer ledger |
| Rebuild.ObservedSound | avatar/engine/runtime.py:109-111 | a key counts as observed exactly when some observation row carries it |
| LedgerInvariant.AcceptedIsCurrent | avatar/engine/runtime.py:145-159 | the optimistic lock: an insert is accepted if and only if the session's private cursor is the end of the ledger and the key is free, whoever holds the lease |
| LedgerInvariant.HeadOfPass | avatar/engine/runtime.py:259-264 | in a pass of a current session the call it is at is the first pending call of the ledger as it is now |
| LedgerInvariant.DecideActs | avatar/engine/runtime.py:259-318 | a call pending in a snapshot is never found observed in it: each is acted upon |
| LedgerInvariant.NextKeepsInv | avatar/engine/runtime.py:145-355 | every action of any session, worker or handler keeps the ledger invariant, and only ever adds rows |
| LedgerInvariant.LedgerAlwaysOk | avatar/engine/runtime.py:145-223 | after every schedule each row is justified by exactly the rows before it: plans by the model on their prefix, observations by policy, approval or a committed intent, finals by a plan just before |
| LedgerInvariant.AppendOnly | avatar/engine/models.py:119-127 | what a schedule recorded is a prefix of what any continuation records |
| Grammar.PlanIsAnswerToItsPrefix | avatar/engine/runtime.py:184-223 | every plan at seq n+1 is the model applied to the state rebuilt from steps 1 to n, even if the worker had lost its lease |
| Grammar.PlansRespectBudget | avatar/engine/budget.py:16-19 | with a cap, if the costs before and up to each plan of the starting ledger are within it, so are those of every plan any schedule adds, for costs of any sign |
| Grammar.NewPlansRespectBudget | avatar/engine/runtime.py:212-215 | every plan a run adds is within the cap, whatever it was enqueued with |
| Grammar.RowCosts | avatar/engine/runtime.py:216-223 | a plan adds to the cost of a run what the model asked for it, an observation the `_cost_cents` of its result if it has one, any other row nothing |
| Grammar.FinalFollowsLastPlan | avatar/engine/runtime.py:225-236 | a final step stands straight after a plan the model meant as its last, or that asks for no tool, and holds its output |
| Grammar.PlanEndsRunIff | avatar/engine/registry.py:60-62 | a plan that gets in ends its run if and only if it is meant as the last or asks for no tool; otherwise the loop goes on |
| Grammar.PlansBounded | avatar/engine/runtime.py:195-199 | plans never outnumber max_steps, or those the run was enqueued with |
| Grammar.ObservationsFollowPlan | avatar/engine/runtime.py:259-355 | after a plan, observations so far followed by what is owed are the plan's unobserved calls, one each, in plan order |
| Grammar.NextPlanWaitsForAll | avatar/engine/runtime.py:201-210 | between one plan and the next stand exactly the observations the first asked for, none missing |
| Blocks.BlocksAlwaysOk | avatar/engine/runtime.py:145-160 | each session wrote exactly the rows from the cursor it loaded to the cursor it has |
| Blocks.SessionsDoNotInterleave | avatar/engine/models.py:130-134 | rows of a session are contiguous, attempts never decrease along seq, seq runs 1 to n without a gap, and the cursor is n |
| ExactlyOnce.CallKeyIsObservation | avatar/engine/runtime.py:109-111 | on the ledger a call's key is taken exactly when the call is observed |
| ExactlyOnce.ObservationClashIsDuplicate | avatar/engine/models.py:132 | the key index rejects a current session's observation if and only if the call repeats an earlier one of the same plan |
| ExactlyOnce.KeyIndexFiresOnlyOnRepeats | avatar/engine/runtime.py:313-318 | if dropping the key index changes any step, the plan being executed asks for a call twice |
| ExactlyOnce.SeqAloneSuffices | avatar/engine/models.py:130-134 | if no plan repeats a call, every schedule ends in the same world with and without the key index |
| ExactlyOnce.NoKeyTwice | avatar/engine/models.py:124-126 | then no key is on two rows even with the seq constraint alone |
| Provenance.ObservationsAreProduced | avatar/engine/runtime.py:320-354 | every result recorded for a tool that runs was returned, or reported as its failure, by a dispatch under the key it is recorded under |
| Provenance.ResultsAreAsRecorded | avatar/engine/runtime.py:265-355 | the result recorded for a call is the refusal, the rejection or the unknown-tool error where policy, human and registry say so, and otherwise what a dispatch of it returned or failed with |
| Failures.ErrorsAreCaused | avatar/engine/runtime.py:173-247 | every error step has its cause in exactly the rows before it: an unknown agent, a recorded cancellation, the plan limit reached, a model that raised, a plan over the cap, a policy answer that is none, or a dispatch of a call of the last plan that raised what is no tool error |
| Failures.FailureTellsCause | avatar/engine/runtime.py:397-411 | under timely leases error class and output of a failed run are that cause |
| Cancellation.CancelStopsPlanning | avatar/engine/runtime.py:186-189 | once a cancellation is on record every schedule adds at most as many plans as sessions were past their check, and it stays on record |
| Cancellation.CancelledRunNeverStarts | avatar/api/routes.py:181-192 | a run cancelled while queued is failed as cancelled, and under every timely schedule stays so, with no row added and nothing dispatched |
| Handlers.CancelRun | avatar/api/routes.py:181-192 | a run that has ended stays as it is, a queued one fails as cancelled, any other is only flagged; nothing else changes |
| Handlers.ResolveApproval | avatar/api/routes.py:205-225 | of a run that waits for approval the newest open request is decided as asked and the run is queued without owner; any other request is refused and changes nothing |
| Dispatches.LogAlwaysOk | avatar/engine/runtime.py:311-330 | every dispatch was allowed, and found its intent on the ledger of that moment |
| Dispatches.IntentPrecedesDispatch | avatar/engine/runtime.py:311-330 | every dispatch carries its call's key and follows the committed intent of exactly that call |
| Dispatches.ClaimsBoundedIff | avatar/engine/worker.py:98-144 | a run is claimed more often than max_attempts if and only if some claim found it without an attempt left |
| Dispatches.RowLockedClaimsKeepLimit | avatar/engine/worker.py:98-110 | no schedule of row-locked claims does that |
| Dispatches.SessionsAreAttempts | avatar/engine/worker.py:107 | sessions are attempts, one for one |
| Dispatches.DispatchesPerAttempt | avatar/engine/runtime.py:320-334 | each attempt dispatches a call at most retries + 1 times, under every schedule |
| Dispatches.DispatchBound | avatar/engine/runtime.py:320-334 | over the run's whole life that makes at most max_attempts * (retries + 1), if no claim overran the limit |
| Redispatch.NothingDependsOnLog | avatar/engine/runtime.py:257-264 | runs that differ only in what was dispatched before stay alike under every schedule |
| Redispatch.RetriesFollowErrors | avatar/engine/runtime.py:320-333 | of the dispatches of one session under one key all but the last ended in a tool error |
| Redispatch.DispatchedTwiceIff | avatar/engine/idempotency.py:11-13 | a call is dispatched more than once if and only if a session retries it after nothing but tool errors, or takes it over with a snapshot that lacks the observation |
| Redispatch.CrashedIsSilent | avatar/engine/runtime.py:62-75 | a killed worker changes no table, and no row and no dispatch comes from its session afterwards |
| Redispatch.NeverAfterObservation | docs/AVATAR.md:373-374 | under timely leases no call is dispatched once its observation is on the ledger |
| Redispatch.BoundIsReached | avatar/engine/runtime.py:320-354 | a call first in line is dispatched max_attempts * (retries + 1) times in some schedule, with every lease kept |
| Redispatch.AtMostOnceIff | docs/AVATAR.md:373-374 | it is dispatched at most once in all schedules, timely or not, if and only if max_attempts is at most one and the tool has no retry, or no attempt is allowed |
| Approvals.AlwaysApproved | avatar/engine/runtime.py:276-299 | with clean reads, from any starting ledger, a session that holds the end of the ledger stands at no guarded call that is not approved, and finds no approval open |
| Approvals.DispatchedOnlyIfApproved | avatar/engine/runtime.py:276-299 | with clean reads a guarded call is dispatched only after its id was approved, leases kept or not |
| Consent.AlwaysPaired | avatar/engine/runtime.py:279-285 | approvals and approval_wait steps come in pairs, one per call id |
| Consent.ApprovedItselfIff | avatar/engine/runtime.py:388-394 | where an approval is found for the id of a call, a human approved that very call if and only if the run was parked for it |
| Consent.UniqueIdsApproveItself | avatar/engine/runtime.py:388-394 | if ids determine calls, an approval found for a call of the ledger was recorded for it, name and arguments included |
| Consent.DispatchedOnlyIfApprovedItself | avatar/engine/runtime.py:276-299 | so, with clean reads, a guarded call is dispatched only after a human approved this very call |
| Consent.TimelyApprovalItself | avatar/engine/runtime.py:276-299 | the same under timely leases, from any starting ledger |
| Consent.DispatchedUnderOwnApprovalIff | avatar/engine/runtime.py:276-299 | whatever the ids, a guarded call that is dispatched was approved itself if and only if the run was parked for it |
| Answers.AnswersAreDecided | avatar/engine/runtime.py:276-299 | with clean reads no guarded call is answered on the ledger before a human decided, and a rejected one is answered with the rejection |
| Answers.RejectedIsRecordedAsRejected | avatar/engine/runtime.py:291-298 | the observation of a rejected call is the rejection, and the only row with its key |
| Approvals.UnguardedReadsAreClean | avatar/engine/policy.py:26-42 | under a policy that requires no approval every schedule has clean reads and asks nobody |
| CrashTransparency.AlwaysAgrees | avatar/engine/runtime.py:249-355 | with deterministic tools and approvers every recorded result is the one result of its call |
| CrashTransparency.CrashTransparent | avatar/engine/runtime.py:166-247 | every schedule of crashes, stalls and re-leases records the decisions of the undisturbed run, in order, up to and including the first final plan |
| CrashTransparency.TracesAgree | avatar/engine/runtime.py:87-93 | two traces of the undisturbed run agree as far as both go |
| CrashTransparency.SchedulesAgree | avatar/engine/runtime.py:166-247 | of any two schedules the decisions of one are a prefix of the other's |
| Reference.TraceIsRecorded | avatar/engine/runtime.py:166-247 | every trace of the undisturbed run is recorded, decision for decision, by a schedule without crashes, cancellations and expired leases, if one attempt more is allowed than guarded calls are answered |
| Reference.SomeCalmScheduleAgrees | avatar/engine/runtime.py:166-247 | so whatever crashes a schedule holds, some schedule without any records the same decisions |
| Termination.StepGoesDown | avatar/engine/runtime.py:182-237 | every step of a session pays with a plan left, a call owed or a position in its pass |
| Termination.NextGoesDown | avatar/engine/worker.py:82-150 | no action makes the measure larger; every session step and every claim, of either kind, makes it smaller |
| Termination.EngineTerminates | avatar/engine/runtime.py:182-237 | every infinite schedule has a point after which no session steps and no claim succeeds |
| Timed.OnlyLatestActs | avatar/engine/worker.py:46-59 | under timely leases only the session of the latest claim can act, and it owns the run |
| Timed.MutualExclusion | avatar/engine/worker.py:46-59 | two live sessions never exist, and the live one's worker is the run's owner |
| Timed.StatusTellsLedger | avatar/engine/runtime.py:225-236 | succeeded means the ledger ends in a final step and the run holds its output, an object or array as it is and anything else under `result`; failed that it ends in the recorded error, or that the run never started; owner and expiry are set exactly while the run is leased or running |
| Timed.TerminalStays | avatar/engine/models.py:54-55 | a timely action leaves row, ledger and dispatch log of a terminal run alone |
| Timed.TerminalIsFinal | avatar/engine/models.py:54-55 | so does every timely schedule |
| Timed.NeverStuck | avatar/engine/worker.py:73-76 | a run that is not terminal is queued, or claimable once its lease is over, or waits for an approval that requeues it |
| Timed.TimelyReadsAreClean | avatar/engine/runtime.py:279-290 | timely leases and no claim while an approval is open make every read clean |
| Timed.TimelyApproval | avatar/engine/runtime.py:276-299 | so a guarded call is dispatched only when its id is approved, from any starting ledger, unless a worker dies between asking and parking |
| Timed.BuryingIsSafeIff | avatar/engine/worker.py:122-130 | burying a run by compare-and-swap keeps all this if and only if no session is at work on the run |
| Timed.PunctualIsTimely | avatar/engine/worker.py:122-130 | if sessions act within their leases and no claim retakes a leased run past the limit, a compare-and-swap never buries a run somebody is at work on |
| Windows.TerminalChangesIff | avatar/engine/runtime.py:403-411 | without timely leases a terminal status changes if and only if a session that loaded another status commits its own |
| Windows.StuckStays | avatar/engine/worker.py:122-130 | a running run without a lease and without sessions is let out of that state by an action if and only if it buries the run with an old candidate |
| Windows.StuckForeverIff | avatar/engine/worker.py:73-76 | it stays so for ever if and only if no claimer holds such a candidate |
| Windows.StaleWorkerReopensRun | avatar/engine/runtime.py:178-179 | a schedule that reopens a succeeded run and leaves it stuck for ever |
| Windows.DisplacedWorkerCommits | avatar/engine/runtime.py:210-223 | a schedule in which a worker commits a plan after another has taken its lease |
| Windows.DecideExecutesUnlessRejected | avatar/engine/runtime.py:276-299 | the guard: a guarded call goes on to execution if and only if its approval row exists and is approved or still open |
| Reads.ApprovalsStayAsRead | avatar/engine/runtime.py:388-394 | under timely leases a worker goes by the approvals it found when it first read the run, until it parks or stops |
| Reads.DispatchedOpenIff | avatar/engine/runtime.py:276-299 | under timely leases a call is dispatched while its approval is open if and only if the worker that dispatches it first read the run while it was open |
| Windows.OpenApprovalIsDispatched | avatar/engine/runtime.py:277-301 | a timely schedule that dispatches a guarded call while its approval is open |
| Windows.CrashRedispatches | avatar/engine/runtime.py:345-354 | a timely schedule that dispatches a call twice under one key, with no retry and no failure of the tool |
| Races.BothSwapsWin | avatar/engine/worker.py:131-146 | a timely schedule in which two claimers that read the same row both lease the run, the second over the limit on attempts |
| Races.OvertakenWorkerDispatches | avatar/engine/runtime.py:276-313 | with clean reads, an overtaken worker of a fork dispatches a guarded call under an open approval |
| Races.OtherCallIsDispatched | avatar/engine/runtime.py:388-394 | a timely schedule with clean claims that dispatches a call under the approval of another with its id |
| Claims.FirstRunnable | avatar/engine/worker.py:84-91 | the first run in order that is runnable and not locked, if there is one |
| Claims.RunQueue.ClaimNextRun | avatar/engine/worker.py:81-111 | the loop leases one run that is unlocked, runnable and has an attempt left, and touches no other but to bury the spent ones before it; it comes back without a run only if every unlocked runnable run is dead now, or it buried one in each of its max_attempts + 2 rounds |
| Claims.ClaimTouchesOnly | avatar/engine/worker.py:98-110 | the claimed run was runnable, unlocked and had an attempt left; every other run is as before, or was out of attempts and is dead |
| Claims.ClaimIsInOrder | avatar/engine/worker.py:87-88 | every run enqueued before the claimed one was locked, not runnable, or is now dead |
| Claims.BuriedOnTheWay | avatar/engine/worker.py:87-104 | and a run is buried only on the way to the claimed one, before which it was enqueued |
| Claims.SwapIsAtomicClaim | avatar/engine/worker.py:131-150 | whatever happened since the candidate was read, the guarded update is an atomic claim of a run runnable at that instant |
| Claims.SwapIsLockedClaimIff | avatar/engine/worker.py:135-144 | but for the candidate it uses up, it equals the row-locked claim if and only if the run still has an attempt left |
| Claims.FreshCandidatesKeepLimit | avatar/engine/worker.py:98-144 | if no claimer updates with a stale candidate, no mix of both kinds of claims exceeds max_attempts |
| Claims.SecondSwapLoses | avatar/engine/worker.py:131-146 | of two claimers that read the same row leased or running, once one has won the guard of the other fails in every continuation, unless somebody writes the very same expiry again |
| Claims.LaterReadingsNeverWrite | avatar/engine/worker.py:71-72 | clock readings after the one that expiry was made from never do |
| Claims.UpdateCandidate | avatar/engine/worker.py:121-150 | the update wins exactly if the run still has the status and expiry it was read with; a run read with no attempt left is dead afterwards unless its status moved |
| Claims.SecondSwapOfQueuedWinsIff | avatar/engine/worker.py:131-146 | of two that read it queued, once one has won the guard of the other holds again if and only if an approval has requeued the run since |
| Claims.ClaimBySwap | avatar/engine/worker.py:114-151 | the loop, with everybody else acting between read and update, wins only by an atomic claim of a runnable run; it goes on until it does, reads the run as not runnable, or has lost max_attempts + 2 rounds, each because the run had no attempt left and was buried for it, or was moved before the update |
| Claims.ClaimLocked | avatar/engine/worker.py:81-111 | the loop claims only a runnable run with an attempt left; it goes on until it does, finds the run not runnable, or has found it spent, and buried it, max_attempts + 2 times |
| Shared.Database.constructor | avatar/engine/models.py:70-113 | the tables of a run start as it was enqueued |
| Shared.WritesWhatChanged | avatar/engine/runtime.py:157-160 | a transaction writes the columns its session changed in its own copy and no others; a heartbeat writes the expiry and nothing else |
| Shared.Database.Transact | avatar/engine/runtime.py:157-160 | a session's commit is its next step in the protocol and extends the schedule by it |
| Shared.Database.Insert | avatar/engine/runtime.py:145-160 | row and cursor are written together, or nothing is and the session ends |
| Workers.Executor.CommitStep | avatar/engine/runtime.py:134-160 | the step is the last row, numbered after the cursor this code loaded, or nothing was written |
| Workers.Executor.Commit | avatar/engine/runtime.py:229-235 | the attributes set are flushed, as the protocol's next step |
| Workers.Executor.Heartbeat | avatar/engine/worker.py:46-59 | the lease runs from the reading of the clock and the owner is still the one this code had; or it was taken by another owner and nothing was written |
| Workers.Executor.RefreshCancel | avatar/engine/runtime.py:186-189 | the code sees the flag and goes where the protocol goes |
| Workers.Executor.LoadSteps | avatar/engine/runtime.py:191-193 | the snapshot is the ledger, its rebuilt state and its pending calls |
| Workers.Executor.Terminal | avatar/engine/runtime.py:403-411 | the failed status is the session's last step |
| Workers.Executor.Fail | avatar/engine/runtime.py:397-400 | an error step of this worker and attempt is on the ledger, or the insert was refused |
| Workers.Executor.Succeed | avatar/engine/runtime.py:225-236 | a final step of this worker and attempt is on the ledger, or the insert was refused |
| Workers.Executor.RequestApproval | avatar/engine/runtime.py:279-285 | approval row and approval_wait step are inserted together or not at all |
| Workers.Executor.Park | avatar/engine/runtime.py:276-290 | the run is parked with its approval_wait step recorded, or the insert was refused |
| Workers.Executor.Observe | avatar/engine/runtime.py:349-354 | the call is observed on the ledger and the pass moves on, or the insert was refused |
| Workers.Executor.Send | avatar/engine/runtime.py:324-330 | the last dispatch logged is of this call, under its key, by this session, ending as returned |
| Workers.Executor.DispatchWithRetries | avatar/engine/runtime.py:320-343 | the retry loop ends where the protocol goes on from its last outcome, whatever the number of attempts |
| Workers.Executor.Conclude | avatar/engine/runtime.py:335-354 | the last outcome is recorded as the call's observation, or fails the run |
| Workers.Executor.ExecuteCall | avatar/engine/runtime.py:301-354 | a call let through ends observed, with intent first, or the session stops for a recorded reason |
| Workers.Executor.ExecuteGuarded | avatar/engine/runtime.py:276-299 | a guarded call parks the run, or ends observed, or the session was refused |
| Workers.Executor.ExecuteNext | avatar/engine/runtime.py:266-355 | whatever the policy says, the call ends observed or the session stops for a recorded reason |
| Workers.Executor.ExecuteUnlessObserved | avatar/engine/runtime.py:259-264 | a call observed in the snapshot is skipped, any other executed |
| Workers.Executor.ExecutePending | avatar/engine/runtime.py:249-355 | a completed pass leaves every call of the snapshot observed |
| Workers.Executor.PlanNext | avatar/engine/runtime.py:209-237 | a plan more is on the ledger, and the loop goes on only after one that asks for a tool and is not meant as the last; or the session stops for a recorded reason |
| Workers.Executor.Proceed | avatar/engine/runtime.py:195-223 | a pass that does not stop the session used up a plan or the calls owed |
| Workers.Executor.Turn | avatar/engine/runtime.py:182-237 | so does a turn of the loop, with others at work before each of its transactions |
| Workers.Executor.ExecuteRun | avatar/engine/runtime.py:166-247 | the loop ends, by its own last step, in one of four ways: its final or error step is on the ledger and the run, if its agent is registered, has succeeded or failed; the run is parked with its approval_wait step; the lease has another owner; or another session's row took the number or the key of the one it had to insert, or its call was asked for already |
| Workers.Drive | avatar/engine/worker.py:167-173 | a claimed session, reloaded and driven, stops by its own last step, in one of these ways |
| Workers.ClaimNext | avatar/engine/worker.py:62-151 | on either path a claim starts exactly one session of this worker, and without a claim there is this reason: every round was lost, and then the run was not runnable or the rounds were used up |
| Workers.TickOnce | avatar/engine/worker.py:154-173 | at most one run is claimed, the session that claimed it drives it until it stops itself in one of the four ways, and a tick that claims nothing has the same reason |
| Workers.FoldGoesOn | avatar/engine/runtime.py:98-126 | longer ledgers have no fewer plans, and with as many plans no more calls are pending |
| Workers.PassPays | avatar/engine/runtime.py:201-207 | a completed pass leaves no call of its plan pending |
| Fork.ArgsByToolCall | avatar/engine/replay.py:60-67 | the loop maps each id to the last call a plan gave it, and nothing else |
| Fork.Store.ForkRun | avatar/engine/replay.py:70-121 | exactly when the constraints accept the copy the new run is queued, with the source's agent, input and cap; its ledger is the source's up to the step asked for, row by row, with the key of an observation or intent made of the new run and the last call of its id; else nothing changes |
| Fork.InsertCopies | avatar/engine/replay.py:97-119 | the insert loop accepts the copies exactly when no constraint is violated |
| Fork.ForkAcceptedIff | avatar/engine/replay.py:97-119 | the copy is accepted if and only if no id was recorded for two calls |
| Fork.ForkKeepsMessages | avatar/engine/replay.py:97-119 | the fork rebuilds the source prefix's messages, always |
| Fork.ForkKeepsPendingIff | avatar/engine/replay.py:97-119 | it resumes with the same pending calls if and only if each call of the last plan is observed just when its id is, and is the last call given this id |
| Fork.ReusedIdLosesCall | avatar/engine/replay.py:60-67 | with a reused id a fork takes the answer of one call for another's, which it then never runs |
| Fork.ReusedIdForbidsFork | avatar/engine/models.py:132 | once the second call is answered too, no copy is accepted |
| Fork.ForkSimulates | avatar/engine/replay.py:70-121 | when ids determine calls, the fork is a ledger a run may start from, with the same messages and pending calls |
| Fork.RunsCanBeForked | avatar/engine/replay.py:73-91 | any prefix of any run's ledger is a source, numbered from 1 to the new run's cursor |
| Fork.ForkSucceeds | avatar/engine/replay.py:70-121 | if ids determine calls the copy of any prefix is accepted, is a ledger a run may start with, and rebuilds the same state |
| Fork.ForkJustifiedRun | avatar/engine/replay.py:70-121 | the operation then succeeds and queues the fork as a run enqueued with that ledger |
| Fork.ForkKeepsBudget | avatar/engine/replay.py:97-119 | a fork's copied plans are within the cap if the source's were, over any number of generations |
| Fork.ReplayTrace | avatar/engine/replay.py:32-57 | the timeline is the ledger line by line, the counters are the numbers of plan, tool_call and observation rows, and the output is that of the last final step, or the run's where there is none |
| Fork.ReplayReconstructsOutput | avatar/engine/replay.py:36-53 | replaying a succeeded run gives the answer its row holds |
| Stream.AfterIsSuffix | avatar/api/routes.py:255-261 | the tail query returns exactly the rows after the last one sent |
| Stream.EventStream.Send | avatar/api/routes.py:262-268 | one poll appends its rows in order, and closes if and only if the status is succeeded, failed, dead or approval_wait |
| Stream.EventStream.EventGen | avatar/api/routes.py:242-269 | what was sent is always a prefix of the ledger, and after the last poll all of it; the stream closes at the first poll that finds the run succeeded, failed, dead or waiting for approval, and at no other; closed on a terminal status nothing can follow |
| Stream.NothingFollowsTerminal | avatar/api/routes.py:249-265 | after a terminal status was read, a timely schedule adds no row |
| RateLimit.TokenBucket.constructor | avatar/api/ratelimit.py:19-23 | the bucket starts full: as many tokens as the burst, one at least; a negative rate counts as zero |
| RateLimit.TokenBucket.Refill | avatar/api/ratelimit.py:30-32 | the tokens are what the whole history of calls leaves at that time |
| RateLimit.TokenBucket.Allow | avatar/api/ratelimit.py:25-36 | a request is granted if and only if no window that ends with it would then have been granted more than a full bucket and its refill; a rate of zero grants all |
| RateLimit.TokensInRange | avatar/api/ratelimit.py:31 | tokens stay between zero and the capacity |
| RateLimit.GrantedPlusTokens | avatar/api/ratelimit.py:25-36 | what was granted in a window plus what is left is at most a full bucket plus the refill |
| RateLimit.RateBound | avatar/api/ratelimit.py:25-36 | in every window [s, t] the cost granted is at most capacity + rate * (t - s) |
| RateLimit.EnoughIffEveryWindowAllows | avatar/api/ratelimit.py:25-36 | the tokens left are enough for a cost if and only if every window that ends now leaves room for it: the bucket is the tightest one with its bound |
| Idempotency.RawIsUnambiguous | avatar/engine/idempotency.py:31 | without colons in ids and names the raw text determines run, id, name and arguments |
| Idempotency.ColonMakesAmbiguous | avatar/engine/idempotency.py:31 | with a colon in a call id some other call has the same raw text |
| Idempotency.TextIsInjective | avatar/engine/idempotency.py:23-42 | short of a digest collision, two keys are written alike if and only if they are equal, intents and observations included |
| Refund.SideEffects.RecordSideEffect | avatar/demo.py:60-77 | the first recording of a key wins, later ones change nothing and say so |
| Refund.SideEffects.IssueRefund | avatar/demo.py:121-134 | the refund is recorded once per key, and the answer repeats order, amount and key and says whether this dispatch was the one |
| Refund.NewEffects | avatar/demo.py:60-77 | the store holds a new effect exactly for the keys of dispatches that did their work, with the arguments of such a dispatch |
| Refund.EffectIff | avatar/demo.py:121-134 | a key is new in the store if and only if some refund dispatch under it returned, or failed with its work done |
| Refund.RunTool | avatar/demo.py:121-134 | running the tool once for every such dispatch leaves in the table what the count of refunds counts |
| Refund.RefundDispatchesAreUniform | avatar/demo.py:145-168 | the refund dispatches of every schedule are such: all of the one refund call |
| Refund.RefundsShareTheKey | avatar/demo.py:145-168 | every refund dispatch of a run, by whatever worker and attempt, is of the one refund call under its one key |
| Refund.BotGoesInOrder | avatar/demo.py:145-168 | look-up, refund, mail and answer come in this order: each plan asks for the first call without an answer on the ledger |
| Refund.RefundedAtMostOnce | avatar/demo.py:4-11 | in every schedule at most one refund is recorded |
| Refund.FinalAnswerSawRefund | avatar/demo.py:149-168 | the bot answers only after its refund call was observed |
| Refund.RefundedExactlyOnce | avatar/demo.py:145-168 | if the run got to its final step without the refund tool failing, exactly one refund is recorded |
| Refund.SucceededRefundsOnce | avatar/demo.py:145-168 | under timely leases the same whenever the run's status is succeeded |

## Left out

- SeqAloneSuffices: assumes that no plan repeats a call, since a repeated call does make the key index fire (ExactlyOnce.ObservationClashIsDuplicate).
- DispatchBound: assumes that no claim overran the limit on attempts (ClaimsBoundedIff), and plans that do not repeat a call.
- DispatchedTwiceIff: assumes plans that do not repeat a call, as do RetriesFollowErrors, NeverAfterObservation and AtMostOnceIff.
- AtMostOnceIff: speaks of a call that is first in line, allowed and registered; whether a later one is ever reached is up to the model.
- CrashTransparent: assumes clean reads (no worker reads the run while an approval is open) where the policy requires approvals; Approvals.UnguardedReadsAreClean discharges it where it does not. A cancellation adds an error row, which is not compared.
- DispatchedOnlyIfApproved: assumes clean reads, and that no guarded call still pending has an intent on the starting ledger (Races.OvertakenWorkerDispatches); TimelyApproval needs no such ledger.
- TraceIsRecorded: assumes plans that do not repeat a call, a lease length that is not negative, and one attempt more than guarded calls are answered, since each may park the run.
- ClaimBySwap: each round reads the run anew. In the source one database session serves all rounds and does not expire what it loaded (avatar/engine/db.py:52), so from the second round on a claimer may see the object as its own first update left it in memory.
- SecondSwapLoses: takes a lease expiry to be written anew only by a clock reading that gives it; LaterReadingsNeverWrite says which readings do not. The lease length is taken not to be negative, in AtMostOnceIff too.
- ForkSucceeds: assumes that ids determine calls; what becomes of forks with reused ids is not followed beyond their first state.
- EventGen: the client's patience bounds the number of polls; the sleep between polls is interference. The event for an unknown run is not modelled.
- TokensInRange: floating-point rounding is not modelled.
- RefundedExactlyOnce: speaks of a run that was not forked; a fork has keys of its own.
- Executor: a crash is not a statement of the loops; a killed worker is a loop cut short after any transaction, which is a schedule already.
- Tool internals: subprocesses, timeouts, output limits and context variables (avatar/engine/tools.py). A dispatch returns or fails.
- SHA-256 and canonical JSON: parameters of Idempotency.
- Conversion of `_cost_cents` and of the order id to text: parameters.
- Creating runs, their queue-depth cap and enqueue keys; listing, metrics, statistics, authentication, configuration, the SDK client and the dashboard: plumbing.
- The polling loop of a worker process with its signals and idle counters: the claims of a schedule cover it.
- The status `paused` and `budget.charge`: the engine never uses them.
- The column `budget_used_cents`, timestamps and fork provenance beyond the fork's own record: not read by the engine.
