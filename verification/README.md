# mlqueue: a verified model

mlqueue is a durable job queue for one machine. A daemon keeps jobs, attempts,
leases, dependencies and one backfill reservation in a database, plans admission in
passes, and hands every admitted attempt to a detached runner that launches and
supervises the command. This project models the parts that are hard to get right and
proves what they are for, over all inputs and over whole runs.

| file | what it models |
|---|---|
| `Domain.dfy` | states, conditions, timeout precedence |
| `Scheduler.dfy`, `PassProperties.dfy` | `plan_pass`, its loop and what every plan guarantees |
| `Tables.dfy`, `Dependencies.dfy`, `Submissions.dfy`, `Transactions.dfy` | the tables as a value, and every transaction as a function on it |
| `Database.dfy`, `Coordinator.dfy` | the database layer and the coordinator as classes, each method proved against its function |
| `QueueInvariant.dfy`, `QueueSteps.dfy`, `QueueMotion.dfy` | what every transaction keeps, and how far each may move things |
| `QueueRuns.dfy`, `QueueFairness.dfy`, `QueueBudgets.dfy`, `QueueAdmission.dfy`, `QueueProgress.dfy` | theorems over every run of the queue |
| `QueueLaws.dfy`, `QueueGuarantees.dfy`, `QueueAcceptance.dfy` | what each transaction does to its rows, what a job can rely on, and when a mutation is accepted |
| `Idempotency.dfy` | keyed mutations |
| `Lifecycle.dfy` | daemon, runners and artifacts of one attempt, with crashes and deaths |
| `LateRunners.dfy` | where that protocol fails, and the exact conditions |
| `Supervision.dfy`, `Timeouts.dfy` | the runner's supervision loop, and a time limit across runner and daemon |
| `EventStream.dfy` | the paged job event stream, server and client |
| `FollowChecks.dfy` | the follow-check deduplicator |

A transaction is one atomic step from one `Db` value to the next. `Coordination.Coordinator.Take`
shows that each step of the queue's state machine is a method call on the coordinator, so the
run theorems hold of every sequence of calls. In the coordinator's methods, the places where the
source re-checks something and returns an error if it does not hold are assertions.

## Assumptions

- There is one clock and it never goes back. Integers are unbounded except where the source saturates or checks (retry deadlines, timeout deadlines).
- Reservations use scheduler semantics version 4.
- A probe that calls a process group empty is right about it; calling an empty group alive is allowed. A dead process stays dead, since identities carry a start time and a boot id.
- Job ids in the candidate list are unique: they are a primary key (in `Scheduler.PlanPass`; proved of the list the database builds).
- The set of active leases may start above its members' limits, because an operator may lower a live limit.
- Lease safety is stated for runs in which a free per-attempt lock is taken only while nobody is authorized and the daemon is not about to authorize. Trying the lock as part of being spawned is always such a step.
- The request hash is injective on canonical requests.

## What the code does not guarantee

- A comment at `src/daemon/coordinator.rs:669-670` and `ARCHITECTURE.md:362` rely on the per-attempt lock to make a duplicate runner harmless. It is not harmless when the duplicate reaches the lock only after the authorized runner has died or finished: `run` does not look at the exec and result artifacts before it launches. The command then starts a second time without a lease (`LateRunners.LateLockFails`), or the daemon releases the lease under it because it knows only the first group (`LateRunners.LateLockReleases`). What to check, once `start` is published and before anything is released, is whether a spawned runner has yet to try the lock: without one every run is safe (`LateRunners.NoPendingIsSafe`), with one a second command can come alive (`LateRunners.LateLaunchExact`), and `LateRunners.LateLockExact` says exactly when a lease can then end up released over a live command.
- An operator who resolves an attempt whose process group was never learned can release a lease while the command runs (`LateRunners.BlindResolveFails`). The source says so in its message. Exactly when it is unsafe is `LateRunners.BlindResolveExact`; before `start` is published it never is.

## Model

| member | source | states |
|---|---|---|
| Scheduler.PlanPass | src/scheduler.rs:101-254 | the rescanning loop computes the outcome of one left-to-right scan |
| Scheduler.AdmitAntitone | src/scheduler.rs:86-92 | a job that does not fit never fits once the shadow set grew |
| Scheduler.BackfillRescan | src/scheduler.rs:189-216 | starting the first backfill and rescanning from the front gives the starts of carrying on behind it |
| PassProperties.PassAdmits | src/scheduler.rs:160-254 | every start is a distinct eligible job that fits beside everything active and everything started before it; a pass with a start ends within every limit |
| PassProperties.PassCommits | src/scheduler.rs:136-250 | every plan can be committed: satisfy and invalidate exclude each other, satisfaction is the first start, a reservation is created only where none survives, its initial consumers are the jobs of its blockers, every bypass names the surviving reservation |
| PassProperties.PassMaximal | src/scheduler.rs:160-254 | either every eligible job started, or the protected job does not fit and neither does any unconsumed job of its priority inside the frontier |
| PassProperties.PassOrder | src/scheduler.rs:218-250 | a start leaves no eligible job of higher priority behind, and unless it bypasses somebody or was protected none of its own priority that was ready earlier |
| Tables.EligibleFacts | src/db.rs:924-947 | the candidate list holds exactly the queued, ready jobs past their retry delay, once each, strictly by priority and readiness |
| Tables.ActiveRowFacts | src/db.rs:1035-1050 | the lease rows a pass reads are the unreleased leases, one row each |
| Dependencies.SkipSetIsLeast | src/db.rs:815-891 | the skipped jobs are the least set closed under violated edges |
| Dependencies.AdvanceSettles | src/db.rs:815-921 | afterwards no finished parent has an open edge and no waiting job a violated one |
| Dependencies.AdvanceVerdicts | src/db.rs:857-891 | the jobs skipped are exactly those of one ascending recursion over the edges; no other state changes |
| Dependencies.AdvanceReadies | src/db.rs:893-919 | afterwards every queued or held job whose retry delay has passed and whose edges have all latched as satisfied has a readiness position |
| Dependencies.AdvanceLatches | src/db.rs:842-855 | an edge latches its parent's terminal state, satisfied if it asks only for an end or the parent succeeded, and violated otherwise; a latched edge stays |
| Dependencies.AdvanceSkips | src/db.rs:857-891 | the waiting jobs skipped are exactly those with an edge that has latched as violated |
| Dependencies.AssignReadyOrder | src/db.rs:893-919 | jobs that become ready together are placed by ascending id |
| Dependencies.LatchKeepsSettlement | src/db.rs:829-855 | latching one edge of a finished parent changes nothing about where resolution ends |
| Dependencies.SkipKeepsSettlement | src/db.rs:857-891 | skipping one doomed job changes nothing about where resolution ends |
| Database.Store.SettleGraph | src/db.rs:815-891 | the round-by-round loop terminates and reaches the least fixed point |
| Database.Store.AdvanceDependencyGraph | src/db.rs:815-921 | rounds and readiness assignment together compute the closed form |
| Database.Store.InsertJob | src/db.rs:508-558 | row, one edge per parent, and a readiness position only without prerequisites |
| Database.Store.AssignNextReadySeq | src/db.rs:729-740 | the counter always moves; only a row without a position takes the new one |
| Database.Store.CreateAttemptWithLease | src/db.rs:949-980 | attempt, lease and job row of a start, with one limit |
| Database.Store.FreezeReservationCutoff | src/db.rs:1262-1270 | a pinned cutoff is never moved |
| Database.Store.RecordBackfill | src/db.rs:1355-1373 | a bypass is recorded once per job, nothing else moves |
| Database.CollapseDependencies | src/db.rs:534-553 | the loop over declarations yields the collapsed edge map |
| Submissions.CollapseMeaning | src/db.rs:534-553 | one edge per declared parent, on success exactly when some declaration of it asks for success |
| Submissions.SameCanonicalIffSameEdges | src/protocol.rs:180-206 | two dependency lists have one canonical form exactly when they store the same edges |
| Submissions.CanonicalDependencies | src/protocol.rs:182-203 | sort, dedup and retain produce the one ascending list that spells out the edge map |
| Submissions.CanonicalIsFixed | src/protocol.rs:180-206 | canonicalizing again changes nothing and stores the same edges |
| Coordination.Coordinator.Schedule | src/daemon/coordinator.rs:1265-1503 | snapshot, plan and commit compute `Pass`; none of the source's re-checks fails |
| Coordination.Coordinator.StartBatch | src/daemon/coordinator.rs:1354-1381 | every started job is still queued; attempts are numbered in start order |
| Coordination.Coordinator.CommitReservation | src/daemon/coordinator.rs:1383-1464 | freeze, satisfy, invalidate and create as planned; blockers are the leases held before and the starts that do not bypass |
| Coordination.Coordinator.RecordBypasses | src/daemon/coordinator.rs:1465-1500 | every bypass is charged to the reservation it names, which is the current one |
| Coordination.Coordinator.FinalizeAttemptAndJob | src/daemon/coordinator.rs:1114-1259 | terminal attempt, lease release, retry policy and resolution in one transaction |
| Coordination.Coordinator.SubmitJob | src/daemon/coordinator.rs:1749-1778 | unknown parents are refused; otherwise insertion and resolution |
| Coordination.Coordinator.CancelJob | src/daemon/coordinator.rs:2139-2237 | what a cancel does in every job and attempt state, rejections included |
| Coordination.Coordinator.EditRow | src/daemon/coordinator.rs:1791-1964 | hold, release, retry and priority edits with their guards and their effect on a reservation |
| Coordination.Coordinator.SetMaxParallelRuns | src/daemon/coordinator.rs:1840-1923 | the three copies of a live limit move together; a no-op keeps the reservation |
| Coordination.Coordinator.RecoverResolve | src/daemon/coordinator.rs:2030-2113 | an operator's resolution and its refusals |
| Coordination.Coordinator.ApplyMutation | src/daemon/coordinator.rs:1741-2137 | every mutation computes `Apply`; a rejected one leaves the tables alone |
| Coordination.Coordinator.HandleMutation | src/daemon/coordinator.rs:410-472 | lookup, application and storing the key happen as in `Handle`; the reply is `Answer` |
| Coordination.Coordinator.Take | src/daemon/coordinator.rs:204-214 | every step of the state machine is a method call and keeps the invariant |
| Coordination.ReplyExists | src/daemon/coordinator.rs:1734-1739 | an accepted mutation always finds the row it replies with |
| Coordination.ReplyLaw | src/daemon/coordinator.rs:1734-1778 | a mutation is carried out exactly when accepted, and the reply shows the job as the tables have it afterwards |
| QueueLaws.SubmitLaw | src/db.rs:508-558 | a submitted row carries what was asked for, with exactly the declared parents, on success where some declaration asks for it |
| QueueLaws.CancelLaw | src/daemon/coordinator.rs:2139-2237 | a cancel ends a waiting or prepared job at once, marks the live attempt otherwise, and is refused for a quarantined attempt and a finished job |
| QueueLaws.YieldLaw | src/daemon/coordinator.rs:2243-2332 | an accepted first yield marks the live attempt of a running yieldable job with the requested hold and changes nothing else |
| QueueLaws.ResolveLaw | src/daemon/coordinator.rs:2030-2113 | a resolve is refused while the group is alive, and otherwise ends attempt, lease and job as asked |
| QueueLaws.ReleaseUndoesHold | src/daemon/coordinator.rs:1791-1821 | releasing a held job restores its row; only a reservation for it is lost |
| QueueLaws.RetryLaw | src/daemon/coordinator.rs:1822-1838 | failed and lost jobs, and no others, can be retried, and wait again without a delay |
| QueueLaws.FinishLaw | src/daemon/coordinator.rs:1114-1259 | the attempt's terminal state determines the job's, holds after a delivered or requested yield included, and a retry's delay saturates |
| QueueLaws.FailureLaw | src/daemon/coordinator.rs:1221-1249 | a failure without a cancel leaves the job queued exactly while its attempts that did not yield number fewer than it may have |
| QueueLaws.FrontierMeaning | src/db.rs:1288-1335 | the window is open exactly while nothing is pinned and some blocker is prepared, authorized or running under its lease |
| QueueGuarantees.RunPositions | src/db.rs:893-919 | in every reachable state a waiting job without a retry delay and with only satisfied edges has a position; after every end of an attempt and every resolution also each such job whose delay has passed |
| QueueGuarantees.RunGivenUp | src/daemon/coordinator.rs:1221-1249 | a failed job has spent all its attempts, yields not counted, unless the attempt that failed it had a cancel on it |
| QueueAcceptance.RunNumbers | src/db.rs:949-980 | the attempts of a job are numbered from 1 to its attempt count without repetition |
| QueueAcceptance.RunAccepts | src/daemon/coordinator.rs:1741-2332 | in every reachable state each operation is accepted exactly when a condition on the tables and its arguments holds, and the edited row then reads as requested |
| QueueSteps.StepInv | src/daemon/coordinator.rs:868-2237 | every transaction keeps the invariant |
| QueueRuns.RunKeepsInv | src/daemon/coordinator.rs:204-222 | the invariant holds after every transaction of every run, across daemon restarts |
| QueueRuns.RunLeasesConsistent | src/daemon/coordinator.rs:1048-1259 | an attempt is live exactly while its one lease is unreleased; a job has at most one live attempt and has one exactly when starting, running or needing attention; the three limits then agree |
| QueueRuns.RunLatches | src/db.rs:842-855 | a resolved edge never changes and a skipped job is never revived |
| QueueRuns.RunSettled | src/db.rs:815-921 | at the end of every transaction no finished parent has an open edge and no waiting job a violated one |
| QueueRuns.RunStartsReadyJobs | src/daemon/coordinator.rs:1354-1381 | an attempt is only ever created for an eligible job whose edges are all satisfied |
| QueueRuns.RunRetryKeepsChildren | src/daemon/coordinator.rs:1822-1838 | retrying a job neither revives a skipped child nor retracts a ready one |
| QueueRuns.RunRequeuedGoesBack | src/daemon/coordinator.rs:1190-1229 | a job that waits again after a failure, a yield, a lost yield or a manual retry goes behind every readiness position handed out so far |
| QueueRuns.RunReservationOk | src/scheduler.rs:133-141 | in every reachable state the protected job is queued, ready and past its delay, so the defensive branch never fires |
| QueueRuns.RunReservationEvolves | src/db.rs:1262-1335 | one reservation keeps job and blockers, only spends bypasses, and its frontier goes open, closing, pinned without ever going back |
| QueueRuns.PassReservationEvolves | src/daemon/coordinator.rs:1289-1400 | a pass pins the cutoff exactly when it finds the window closed, at the newest position, never at the sentinel |
| QueueFairness.RunBoundedBypass | src/scheduler.rs:193-216 | once the cutoff is pinned the jobs that can still pass never gain a member and every start uses one up, whatever is submitted, retried, yielded, held, released or reprioritised |
| QueueFairness.RunBypassOnce | src/db.rs:1355-1369 | no job bypasses one reservation twice |
| QueueFairness.RunHoldersNeverBypass | src/scheduler.rs:239-249 | a job that held a lease when the reservation was created never bypasses it |
| QueueFairness.RunEqualPriority | src/scheduler.rs:189-211 | while a reservation stays active only jobs of its priority start, by bypassing it |
| QueueAdmission.RunPassIsFull | src/scheduler.rs:86-250 | after a pass every competing job starts, or the protected job and every job that may still pass it would push the active leases over its own limit or over that of an active lease |
| QueueAdmission.RunOrder | src/scheduler.rs:218-250 | over every run starts respect priority, and readiness order inside a priority |
| QueueAdmission.PassNewReservation | src/daemon/coordinator.rs:1429-1464 | a new reservation waits for exactly the leases active after the pass, those of its bypassers apart, and all active jobs have spent their bypass |
| QueueProgress.RunDrainedStarts | src/scheduler.rs:160-188 | with a reservation and no active lease, the next pass first starts the protected job, or a job of higher priority that supersedes it |
| QueueProgress.RunProtectedStarts | src/scheduler.rs:160-216 | once the cutoff is pinned, at most as many starts as there were waiters come first; the pass that finds the leases drained starts the protected job unless a higher priority takes its place |
| QueueProgress.RunYieldGivesWay | src/daemon/coordinator.rs:2243-2332 | an accepted yield without hold means another job of at least the same priority can run, and it is ahead of the yielding job when that waits again |
| QueueProgress.TimeLimitUnseen | src/daemon/coordinator.rs:1966-2029 | a time-limit edit changes no plan and touches no reservation, and records when the limit was set |
| QueueBudgets.PassWithinLimits | src/scheduler.rs:169-231 | a pass that starts anything leaves the active set within every member's limit |
| QueueBudgets.RunExcess | src/daemon/coordinator.rs:1882-1906 | the excess over the smallest active limit rises only when an operator lowers a live limit |
| QueueBudgets.RunNeverOver | src/scheduler.rs:86-92 | without such an edit no run ever exceeds a limit |
| QueueBudgets.RunFailures | src/daemon/coordinator.rs:1149-1251 | a job's failed attempts number at most its declared attempts plus its manual retries, however many yields are interleaved |
| Idempotency.RepeatsLeaveNoTrace | src/daemon/coordinator.rs:410-472 | any sequence of requests and background steps ends as the sequence without repeats of stored keys |
| Idempotency.RepeatAnswered | src/daemon/coordinator.rs:412-430 | whatever happens in between, an identical repeat gets the first reply, a different request under the key is a conflict, and neither changes anything |
| Idempotency.RepeatRecognised | src/daemon/coordinator.rs:410-430 | a request under a used key gets the first reply if and only if it asks for the same: equal requests, or submissions equal apart from the spelling of their dependencies that store the same edges |
| Idempotency.ResubmitRecognised | src/protocol.rs:180-206 | the same for two submissions, spelled out |
| Idempotency.CanonicalSameEffect | src/protocol.rs:180-206 | requests with one canonical form are carried out alike |
| Lifecycle.StepInv | src/daemon/coordinator.rs:560-1046 | every step of daemon, client, runner and command keeps the protocol's invariant |
| Lifecycle.LeaseReleaseIsSafe | src/daemon/coordinator.rs:560-1259 | over every interleaving with crashes and deaths, once the lease is released no command of the attempt is alive, then or later |
| Lifecycle.LockAtSpawnIsPrompt | src/daemon/coordinator.rs:1516-1623 | trying the lock as part of being spawned is covered by that theorem |
| LateRunners.EveryReleaseOccurs | src/daemon/coordinator.rs:668-1046 | each way an attempt can end in the source is reachable in the model |
| LateRunners.LateLaunchExact | src/process/runner.rs:60-175 | once `start` is published, a command besides the authorized runner's can come alive if and only if a spawned runner has not tried the lock yet |
| LateRunners.NoPendingIsSafe | src/daemon/coordinator.rs:560-1259 | without such a runner every run, however its steps are timed, never leaves a live command without a lease |
| LateRunners.LateLockExact | src/process/runner.rs:60-210 | with the lease held or released, a lease can end up released over a live command if and only if `start` is published and such a runner exists, except where it is the only one left to launch |
| LateRunners.LateLockFails | src/process/runner.rs:96-175 | a run in which the command starts again after the release |
| LateRunners.LateLockReleases | src/daemon/coordinator.rs:946-975 | a run in which the daemon releases the lease under the second command |
| LateRunners.BlindResolveFails | src/daemon/coordinator.rs:2053-2082 | a run in which an operator releases a lease under a running command whose group is unknown |
| LateRunners.BlindResolveExact | src/daemon/coordinator.rs:2053-2113 | such a resolve is unsafe if and only if `start` is published and a command is alive or some runner may still launch one |
| Supervision.Supervisor.PollOnce | src/process/runner.rs:238-409 | one round of the loop computes `Step` |
| Supervision.Supervisor.Supervise | src/process/runner.rs:223-464 | the loop ends with the classified outcome once the group is proven gone |
| Supervision.EndsAfterTwoEmptyScans | src/process/runner.rs:239-263 | supervision ends exactly at the second of two consecutive empty scans after the leader's exit was seen |
| Supervision.RunSignals | src/process/runner.rs:265-408 | at most one SIGTERM, SIGKILL and yield signal; SIGKILL the grace period or more after SIGTERM; a yield signal after its record and never after SIGTERM |
| Supervision.RunOutcome | src/process/runner.rs:418-464 | timed out, cancelled and yielded are reported exactly when the polls say so; yielded only if signalled, with the declared code, without timeout or cancel before exit |
| Supervision.EarlierCancelDecides | src/domain.rs:156-162 | if every poll past its limit finds a cancel requested by the deadline or before the limit was installed, the outcome is no timeout |
| Supervision.LaterCancelTimesOut | src/domain.rs:156-162 | one poll past its limit with a group not empty and no cancel, or one dated after both instants, makes the outcome a timeout |
| Supervision.StepReacts | src/process/runner.rs:294-345 | a cancel, an expired limit or a yield request takes effect in the poll that sees it, and no kill stays overdue |
| Timeouts.RecordedTimeoutIsFinal | src/daemon/coordinator.rs:906-1013 | once the timeout record exists, no limit edit, clear, cancel, runner death or daemon restart changes it, the kill anchor or the failed outcome; the record is the runner's own or repeats the deadline the daemon committed to |
| Timeouts.DrainedOrphanClassified | src/daemon/coordinator.rs:917-975 | an orphan found drained fails exactly when an earlier poll recorded a timeout, or an earlier look did not find the group empty with the deadline in force passed and no cancel outranking it; else it is cancelled exactly when a cancel was committed, else lost |
| Timeouts.DrainedRunClassified | src/daemon/coordinator.rs:917-975 | the same, read off any run that has ended so |
| Timeouts.PollRecords | src/process/runner.rs:265-315 | the runner records a timeout exactly at the first poll that finds the limit passed, no cancel outranking it and the group not empty |
| Timeouts.ReportedRunClassified | src/daemon/coordinator.rs:1075-1112 | an attempt that ends by its result succeeds exactly on a plain exit with code 0, is cancelled or yielded as the runner classified it, and fails otherwise |
| Timeouts.OrphanPrecedence | src/daemon/coordinator.rs:931-972 | a look after the deadline commits an orphan to the timeout exactly when no cancel was requested by the deadline or before the limit was installed; it then drains as failed, else as cancelled |
| Timeouts.FirstAnchor | src/domain.rs:164-182 | the first kill is measured from the deadline, or from the installation of the limit if that came later |
| EventStream.StreamDelivers | src/daemon/mod.rs:302-358 | what is delivered is exactly the job's events above the start and up to the cursor, complete as of the snapshot whenever there is no more; a page with more is never empty |
| EventStream.TurnFacts | src/daemon/coordinator.rs:277-315 | each page is the next window of the log, at most 256 events, and acceptable to the client |
| EventStream.ShrunkIsPrefix | src/daemon/mod.rs:315-326 | shrinking cuts a page short, never to nothing, and says so |
| EventStream.WindowFacts | src/db.rs:1451-1466 | the page query returns the job's events above the cursor, ascending |
| EventStream.JobStream.Shrink | src/daemon/mod.rs:312-326 | the truncating loop halves until the page fits or one event is left |
| EventStream.JobStream.Turn | src/daemon/mod.rs:302-358 | one turn of the loop: query, shrink, cursor, send or not; an unfit page ends the stream |
| EventStream.JobSubscription.Next | src/client.rs:203-225 | the client accepts exactly the acceptable pages and keeps its cursor otherwise |
| EventStream.Follow | src/daemon/mod.rs:302-358 | server and client together: every page sent is accepted and the cursors agree |
| EventStream.Drain | src/daemon/mod.rs:350-354 | a backlog drains without waiting until nothing is pending |
| FollowChecks.CheckState.Observe | src/follow_checks.rs:232-293 | an observation that counts updates the active keys and reports the fresh ones; a rejected or stale one changes neither the active keys nor the last step |
| FollowChecks.CheckState.Validate | src/follow_checks.rs:233-253 | exactly the well-formed observations pass |
| FollowChecks.CheckState.Retain | src/follow_checks.rs:271-279 | seen keys reset, unseen keys count up and leave at the threshold |
| FollowChecks.CheckState.Report | src/follow_checks.rs:280-291 | what was not active is reported in order and becomes active |
| FollowChecks.CheckState.Failure | src/follow_checks.rs:295-314 | a run of failures is reported once, with a message clipped to the limit |
| FollowChecks.ResetAttempt | src/follow_checks.rs:342-350 | a new attempt clears every check and makes it due |
| FollowChecks.CountsMeaning | src/follow_checks.rs:232-266 | which observations count, in numbers: findings, key and message bytes, distinct keys, fresh step, active keys |
| FollowChecks.FreshContents | src/follow_checks.rs:280-291 | the reports are the findings whose key was not active, with their own step or the observation's |
| FollowChecks.FreshInOrder | src/follow_checks.rs:280-291 | reports keep the order of the findings |
| FollowChecks.EmissionExact | src/follow_checks.rs:232-293 | a key is reported exactly when an observation that counts contains it and it never appeared or was omitted `clearAfter` times in a row |
| FollowChecks.EmissionsApart | src/follow_checks.rs:271-291 | two reports of one key have at least `clearAfter` consecutive omissions between them |
| FollowChecks.ActiveBounded | src/follow_checks.rs:259-266 | never more than 256 active keys |
| FollowChecks.FailedMeaning | src/follow_checks.rs:255-314 | the failure mark says whether the last completed check failed |
| FollowChecks.ClippedFits | src/follow_checks.rs:300-307 | the clipped message is the longest prefix that fits |

## Left out

- Lifecycle.LeaseReleaseIsSafe: does not cover a runner that takes the lock after authorization, because the property is then false; `LateRunners.LateLockExact` says exactly when.
- SQLite, SQL text, schema migrations, reservation semantics versions 1 to 3 with the admission block they cause, and the version 5 request hash.
- Process inspection, signals, `flock`, `waitid` and `fork` themselves: their answers are parameters or steps.
- Durability of artifact writes: an artifact is there or not; corrupt ones and foreign tokens appear only as the quarantine step.
- JSON, SHA-256, TOML, command line parsing and frame encoding; whether an update fits a frame is a parameter.
- Rejection of a negative cursor and of an unknown job in a job subscription; the model starts from an accepted request.
- Submission checks on paths, names, environment and argument sizes, and the interactive check and reason of a yield.
- Publication of limit, cancel and yield files after the transaction; what a runner reads in a poll is arbitrary instead.
- Timestamps and force levels of a cancel in the queue's tables; in `Supervision.dfy` and `Timeouts.dfy` they are modelled.
- Rows of resolved reservations, finished operations of other kinds and the events table as part of the queue's tables; the scheduler reads none of them.
- Signals the daemon sends to an orphan, apart from the instant the kill is measured from.
- Status, eligibility and history views, hooks, text to speech, follow output, job context discovery, configuration and installation: derived text and I/O that would add only easy members.
- Which follow checks are due, and the subprocesses that produce their observations.
- Connection handling, peer credentials, write timeouts and subscription permits.
