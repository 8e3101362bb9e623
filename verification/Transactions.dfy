/**
 Every write transaction of the coordinator as a function on the tables. A
 rejected mutation rolls back, so it carries no tables.
 */
module Transactions {
  import opened Domain
  import opened Scheduler
  import opened Tables
  import opened Dependencies
  import opened Submissions

  const I64_MAX: int := 0x7fff_ffff_ffff_ffff

  function SaturatingAdd(a: int, b: nat): int {
    if a + b > I64_MAX then I64_MAX else a + b
  }

  // -------------------------------------------------------------------------
  // Row updates
  // -------------------------------------------------------------------------

  function WithJob(db: Db, j: JobId, job: Job): Db {
    db.(jobs := db.jobs[j := job])
  }

  function WithAttempt(db: Db, a: AttemptId, attempt: Attempt): Db {
    db.(attempts := db.attempts[a := attempt])
  }

  /** A live attempt and its job move on together. */
  function WithLive(db: Db, a: AttemptId, attempt: AttemptState, job: JobState): Db
    requires a in db.attempts && db.attempts[a].job in db.jobs
  {
    var j := db.attempts[a].job;
    WithJob(WithAttempt(db, a, db.attempts[a].(state := attempt)), j, db.jobs[j].(state := job))
  }

  /** The attempt ends, its lease is released and its job row is replaced. */
  function Close(db: Db, a: AttemptId, state: AttemptState, job: Job): Db
    requires a in db.attempts && a in db.leases
  {
    WithJob(
      WithAttempt(db, a, db.attempts[a].(state := state)).(leases := db.leases[a := db.leases[a].(released := true)]),
      db.attempts[a].job, job)
  }

  /** A reservation that protects `j` is invalidated. */
  function DropReservation(db: Db, j: JobId): Db {
    if db.reservation.Some? && db.reservation.value.job == j then db.(reservation := None) else db
  }

  // -------------------------------------------------------------------------
  // Client mutations
  // -------------------------------------------------------------------------

  datatype SubmitParams = SubmitParams(
    limit: nat,
    priority: int,
    maxAttempts: nat,
    retryDelay: nat,
    yieldable: bool,
    timeLimit: Option<nat>,
    dependencies: seq<DependencySpec>)

  datatype ResolveAs = AsLost | AsCancelled

  /** `stillAlive` on a resolve is the containment probe's answer. */
  datatype Op =
    | Submit(params: SubmitParams)
    | Cancel(job: JobId, force: bool)
    | Yield(job: JobId, hold: bool)
    | Hold(job: JobId)
    | Release(job: JobId)
    | Retry(job: JobId)
    | SetMaxParallelRuns(job: JobId, limit: nat)
    | SetPriority(job: JobId, priority: int)
    | SetTimeLimit(job: JobId, timeLimit: Option<nat>)
    | RecoverResolve(job: JobId, number: nat, resolveAs: ResolveAs, stillAlive: bool)
    | Pause
    | Unpause

  datatype ErrorCode = NotFound | InvalidArgument | InvalidState | UnsafeResolution

  datatype Outcome = Accepted(db: Db) | Rejected(error: ErrorCode)

  predicate ParentsExist(db: Db, deps: seq<DependencySpec>) {
    forall d | d in deps :: 0 < d.job && d.job in db.jobs
  }

  function NewEdges(collapsed: map<int, Condition>, child: JobId): map<(JobId, JobId), Edge> {
    map p: JobId | p in collapsed :: (p, child) := Edge(collapsed[p], None)
  }

  /** The row and the edges of a fresh job; without prerequisites it is ready at once. */
  function InsertJob(db: Db, params: SubmitParams): Db {
    var id := db.lastJob + 1;
    var collapsed := Collapse(params.dependencies);
    var job := Job(Queued, params.limit, params.priority, params.maxAttempts, params.retryDelay, None, None, 0, params.yieldable,
                   params.timeLimit, None);
    var inserted := db.(lastJob := id, jobs := db.jobs[id := job], edges := db.edges + NewEdges(collapsed, id));
    if collapsed.Keys == {} then AssignNext(inserted, id) else inserted
  }

  function SubmitJob(db: Db, params: SubmitParams, now: int): Outcome {
    if params.limit == 0 || params.maxAttempts == 0 || params.retryDelay > I64_MAX || !TimeLimitOk(params.timeLimit) then Rejected(InvalidArgument)
    else if !ParentsExist(db, params.dependencies) then Rejected(NotFound)
    else Accepted(Advance(InsertJob(db, params), now))
  }

  function CancelJob(db: Db, j: JobId, force: bool, now: int): Outcome {
    if j !in db.jobs then Rejected(NotFound)
    else
      var job := db.jobs[j];
      if job.state.IsWaiting() then
        Accepted(Advance(WithJob(DropReservation(db, j), j, job.(state := JobState.Cancelled)), now))
      else if job.state.IsActive() then
        var live := LiveAttempt(db, j);
        if live.None? then Rejected(InvalidState)
        else
          var a := live.value;
          var flagged := WithAttempt(db, a, db.attempts[a].(cancelRequested := true));
          match db.attempts[a].state
          case Prepared =>
            if a !in db.leases then Rejected(InvalidState)
            else Accepted(Advance(Close(flagged, a, AttemptState.Cancelled, job.(state := JobState.Cancelled)), now))
          case Authorized => Accepted(flagged)
          case Running => Accepted(flagged)
          case Orphaned => Accepted(flagged)
          case _ => Rejected(UnsafeResolution)
      else Rejected(InvalidState)
  }

  /** A yield without hold is refused when no other job would run ahead. */
  predicate SomeoneAhead(db: Db, j: JobId, now: int)
    requires j in db.jobs
  {
    exists c | c in EligibleCandidates(db, now) :: c.job != j && c.priority >= db.jobs[j].priority
  }

  function YieldJob(db: Db, j: JobId, hold: bool, now: int): Outcome {
    if j !in db.jobs then Rejected(NotFound)
    else if !db.jobs[j].yieldable || !db.jobs[j].state.Running? then Rejected(InvalidState)
    else
      var live := LiveAttempt(db, j);
      if live.None? || !db.attempts[live.value].state.Running? || db.attempts[live.value].cancelRequested then Rejected(InvalidState)
      else if db.attempts[live.value].yieldRequested then Accepted(db)
      else if !hold && !SomeoneAhead(db, j, now) then Rejected(InvalidState)
      else Accepted(WithAttempt(db, live.value, db.attempts[live.value].(yieldRequested := true, yieldHold := hold)))
  }

  function HoldJob(db: Db, j: JobId): Outcome {
    if j !in db.jobs then Rejected(NotFound)
    else if !db.jobs[j].state.Queued? then Rejected(InvalidState)
    else Accepted(WithJob(DropReservation(db, j), j, db.jobs[j].(state := Held)))
  }

  function ReleaseJob(db: Db, j: JobId): Outcome {
    if j !in db.jobs then Rejected(NotFound)
    else if !db.jobs[j].state.Held? then Rejected(InvalidState)
    else Accepted(WithJob(db, j, db.jobs[j].(state := Queued)))
  }

  function RetryJob(db: Db, j: JobId, now: int): Outcome {
    if j !in db.jobs then Rejected(NotFound)
    else if !db.jobs[j].state.IsRetryable() then Rejected(InvalidState)
    else Accepted(Advance(WithJob(db, j, db.jobs[j].(state := Queued, retryNotBefore := None, readySeq := None)), now))
  }

  /** The limit is changed on the job, the attempt and the lease together. */
  function WithLimit(db: Db, j: JobId, a: AttemptId, limit: nat): Db
    requires j in db.jobs && a in db.attempts && a in db.leases
  {
    WithJob(db, j, db.jobs[j].(limit := limit))
      .(attempts := db.attempts[a := db.attempts[a].(limit := limit)],
        leases := db.leases[a := db.leases[a].(limit := limit)])
  }

  function SetLimit(db: Db, j: JobId, limit: nat): Outcome {
    if limit == 0 then Rejected(InvalidArgument)
    else if j !in db.jobs then Rejected(NotFound)
    else
      var job := db.jobs[j];
      if job.state.IsTerminal() then Rejected(InvalidState)
      else if job.limit == limit then Accepted(db)
      else if job.state.IsWaiting() then Accepted(WithJob(DropReservation(db, j), j, job.(limit := limit)))
      else
        var live := LiveAttempt(db, j);
        if live.None? || !HoldsLease(db, live.value) then Rejected(InvalidState)
        else Accepted(WithLimit(db, j, live.value, limit))
  }

  function SetJobPriority(db: Db, j: JobId, priority: int): Outcome {
    if j !in db.jobs then Rejected(NotFound)
    else
      var job := db.jobs[j];
      if !job.state.IsWaiting() then Rejected(InvalidState)
      else if job.priority == priority then Accepted(db)
      else
        var dropped := if job.state.Queued? then DropReservation(db, j) else db;
        Accepted(WithJob(dropped, j, job.(priority := priority)))
  }

  /** Positive and storable, or none. */
  predicate TimeLimitOk(timeLimit: Option<nat>) {
    timeLimit.Some? ==> 0 < timeLimit.value <= I64_MAX
  }

  /** The row alone changes; a live runner learns of it through its limit file. */
  function SetJobTimeLimit(db: Db, j: JobId, timeLimit: Option<nat>, now: int): Outcome {
    if !TimeLimitOk(timeLimit) then Rejected(InvalidArgument)
    else if j !in db.jobs then Rejected(NotFound)
    else
      var job := db.jobs[j];
      if job.state.IsTerminal() then Rejected(InvalidState)
      else if job.timeLimit == timeLimit then Accepted(db)
      else if !job.state.IsWaiting() && LiveAttempt(db, j).None? then Rejected(InvalidState)
      else Accepted(WithJob(db, j, job.(timeLimit := timeLimit, timeLimitSetAt := Some(now))))
  }

  /** The attempt of a job with a given number, looked for up to `n`. */
  function ByNumber(db: Db, j: JobId, number: nat, n: AttemptId): (r: Option<AttemptId>)
    ensures r.Some? ==> r.value in db.attempts && db.attempts[r.value].job == j
  {
    if n == 0 then None
    else if n in db.attempts && db.attempts[n].job == j && db.attempts[n].number == number then Some(n)
    else ByNumber(db, j, number, n - 1)
  }

  function ResolveRecovery(db: Db, j: JobId, number: nat, resolveAs: ResolveAs, stillAlive: bool, now: int): Outcome {
    var found := ByNumber(db, j, number, db.lastAttempt);
    if found.None? || j !in db.jobs || found.value !in db.leases then Rejected(NotFound)
    else
      var a := found.value;
      var state := db.attempts[a].state;
      if !state.Orphaned? && !state.Quarantined? then Rejected(InvalidState)
      else if stillAlive then Rejected(UnsafeResolution)
      else match resolveAs
        case AsLost => Accepted(Advance(Close(db, a, AttemptState.Lost, db.jobs[j].(state := JobState.Lost)), now))
        case AsCancelled => Accepted(Advance(Close(db, a, AttemptState.Cancelled, db.jobs[j].(state := JobState.Cancelled)), now))
  }

  function Apply(db: Db, op: Op, now: int): Outcome {
    match op
    case Submit(params) => SubmitJob(db, params, now)
    case Cancel(j, force) => CancelJob(db, j, force, now)
    case Yield(j, hold) => YieldJob(db, j, hold, now)
    case Hold(j) => HoldJob(db, j)
    case Release(j) => ReleaseJob(db, j)
    case Retry(j) => RetryJob(db, j, now)
    case SetMaxParallelRuns(j, limit) => SetLimit(db, j, limit)
    case SetPriority(j, priority) => SetJobPriority(db, j, priority)
    case SetTimeLimit(j, timeLimit) => SetJobTimeLimit(db, j, timeLimit, now)
    case RecoverResolve(j, number, how, alive) => ResolveRecovery(db, j, number, how, alive, now)
    case Pause => Accepted(db.(paused := true))
    case Unpause => Accepted(db.(paused := false))
  }

  // -------------------------------------------------------------------------
  // Reconciliation
  // -------------------------------------------------------------------------

  /** The job row after its attempt ended, retry policy included. `used` counts
      the attempts charged to the budget, this one among them. */
  function JobAfter(job: Job, attempt: Attempt, state: AttemptState, used: int, now: int): Job
    requires state.IsTerminal()
  {
    match state
    case Succeeded => job.(state := JobState.Succeeded)
    case Cancelled => job.(state := JobState.Cancelled)
    case Lost =>
      if attempt.yieldDelivered && !attempt.cancelRequested then job.(state := Held, retryNotBefore := None, readySeq := None)
      else job.(state := JobState.Lost)
    case Yielded =>
      if attempt.cancelRequested then job.(state := JobState.Cancelled)
      else job.(state := if attempt.yieldHold then Held else Queued, retryNotBefore := None, readySeq := None)
    case Failed =>
      if used < job.maxAttempts && !attempt.cancelRequested then
        var notBefore := if job.retryDelay > 0 then Some(SaturatingAdd(now, job.retryDelay)) else None;
        job.(state := Queued, retryNotBefore := notBefore, readySeq := None)
      else job.(state := JobState.Failed)
  }

  function Used(db: Db, a: AttemptId, state: AttemptState): int
    requires a in db.attempts && db.attempts[a].job in db.jobs
  {
    var j := db.attempts[a].job;
    db.jobs[j].attemptCount - YieldCount(WithAttempt(db, a, db.attempts[a].(state := state)), j)
  }

  /** Terminal attempt state, lease release, job transition and resolution in one transaction. */
  function Finalize(db: Db, a: AttemptId, state: AttemptState, now: int): Db
    requires a in db.attempts && a in db.leases && db.attempts[a].job in db.jobs && state.IsTerminal()
  {
    var job := db.jobs[db.attempts[a].job];
    var after := if job.state.IsTerminal() then job else JobAfter(job, db.attempts[a], state, Used(db, a, state), now);
    Advance(Close(db, a, state, after), now)
  }

  // -------------------------------------------------------------------------
  // The scheduling pass
  // -------------------------------------------------------------------------

  function StartJob(db: Db, j: JobId): Db
    requires j in db.jobs
  {
    var job := db.jobs[j];
    var id := db.lastAttempt + 1;
    db.(lastAttempt := id,
        attempts := db.attempts[id := Attempt(j, job.attemptCount + 1, Prepared, job.limit, false, false, false, false)],
        leases := db.leases[id := Lease(j, job.limit, false)],
        jobs := db.jobs[j := job.(state := Starting, attemptCount := job.attemptCount + 1)])
  }

  function StartAll(db: Db, starts: seq<Start>): Db
    requires forall s | s in starts :: s.job in db.jobs
    decreases |starts|
  {
    if starts == [] then db
    else
      assert starts[0] in starts;
      StartAll(StartJob(db, starts[0].job), starts[1..])
  }

  function PendingFreeze(db: Db): Option<nat> {
    if db.reservation.Some? && BackfillFrontier(db, db.reservation.value).FreezePending?
    then Some(BackfillFrontier(db, db.reservation.value).cutoff) else None
  }

  /** The reservation as the planner sees it: a closing window already binds. */
  function Snapshot(db: Db): Option<ReservationSnapshot> {
    match db.reservation
    case None => None
    case Some(r) =>
      var cutoff := match BackfillFrontier(db, r)
                    case OpenWindow => None
                    case FreezePending(c) => Some(c)
                    case Frozen(c) => Some(c);
      Some(ReservationSnapshot(r.job, cutoff, r.consumed))
  }

  /** The shadow set when protection was created: active attempts and this
      batch's admissions that do not bypass the new reservation. */
  function Blockers(db: Db, starts: seq<Start>, protected: JobId): set<AttemptId> {
    ActiveSet(db) + set k: nat | k < |starts| && starts[k].bypasses != Some(protected) :: db.lastAttempt + 1 + k
  }

  function BypassJobs(starts: seq<Start>, protected: JobId): set<JobId> {
    set s | s in starts && s.bypasses == Some(protected) :: s.job
  }

  /** What becomes of the reservation that was active before the pass. */
  function Kept(db: Db, outcome: PassOutcome, freeze: Option<nat>): Option<Reservation> {
    if db.reservation.None? || outcome.satisfy || outcome.invalidate.Some? then None
    else if freeze.Some? && db.reservation.value.cutoff == UNFROZEN then Some(db.reservation.value.(cutoff := freeze.value))
    else db.reservation
  }

  function NextReservation(db: Db, outcome: PassOutcome, freeze: Option<nat>): Option<Reservation> {
    if outcome.create.Some? then
      var n := outcome.create.value;
      Some(Reservation(db.lastReservation + 1, n.job, UNFROZEN, Blockers(db, outcome.starts, n.job), n.initialConsumed))
    else Kept(db, outcome, freeze)
  }

  function CommitPass(db: Db, outcome: PassOutcome, freeze: Option<nat>): Db
    requires forall s | s in outcome.starts :: s.job in db.jobs
  {
    var next := NextReservation(db, outcome, freeze);
    StartAll(db, outcome.starts).(
      reservation := if next.None? then None
                     else Some(next.value.(consumed := next.value.consumed + BypassJobs(outcome.starts, next.value.job))),
      lastReservation := db.lastReservation + if outcome.create.Some? then 1 else 0)
  }

  function PassPlan(db: Db, now: int): PassOutcome {
    ScanPass(ActiveLeases(db), EligibleCandidates(db, now), Snapshot(db))
  }

  predicate Startable(db: Db, starts: seq<Start>) {
    forall s | s in starts :: s.job in db.jobs
  }

  function Pass(db: Db, now: int): Db {
    if db.paused then db
    else
      var plan := PassPlan(db, now);
      if Startable(db, plan.starts) then CommitPass(db, plan, PendingFreeze(db)) else db
  }

  // -------------------------------------------------------------------------
  // Steps
  // -------------------------------------------------------------------------

  /** Everything that can happen to the tables. Which reconciliation step occurs
      is decided by artifacts and processes, so the step carries that decision. */
  datatype Step =
    | Mutate(op: Op)
    | MarkAuthorized(attempt: AttemptId)
    | MarkRunning(attempt: AttemptId)
    | MarkOrphaned(attempt: AttemptId)
    | Quarantine(attempt: AttemptId)
    | ObserveYield(attempt: AttemptId)
    | Finish(attempt: AttemptId, state: AttemptState)
    | ResolveGraph
    | SchedulePass

  predicate Enabled(db: Db, step: Step) {
    match step
    case MarkAuthorized(a) => a in db.attempts && db.attempts[a].state.Prepared? && db.attempts[a].job in db.jobs
                              && db.jobs[db.attempts[a].job].state.Starting?
    case MarkRunning(a) => a in db.attempts && db.attempts[a].state.Authorized? && db.attempts[a].job in db.jobs
    case MarkOrphaned(a) => a in db.attempts && db.attempts[a].state.Running? && db.attempts[a].job in db.jobs
    case Quarantine(a) => a in db.attempts && !db.attempts[a].state.IsTerminal() && !db.attempts[a].state.Quarantined?
                          && db.attempts[a].job in db.jobs
    case ObserveYield(a) => a in db.attempts && !db.attempts[a].state.IsTerminal() && db.attempts[a].yieldRequested
    case Finish(a, state) => a in db.attempts && a in db.leases && !db.attempts[a].state.IsTerminal()
                             && db.attempts[a].job in db.jobs && state.IsTerminal()
    case _ => true
  }

  function Next(db: Db, step: Step, now: int): Db
    requires Enabled(db, step)
  {
    match step
    case Mutate(op) => if Apply(db, op, now).Accepted? then Apply(db, op, now).db else db
    case MarkAuthorized(a) => WithLive(db, a, Authorized, Starting)
    case MarkRunning(a) => WithLive(db, a, AttemptState.Running, JobState.Running)
    case MarkOrphaned(a) => WithLive(db, a, Orphaned, NeedsAttention)
    case Quarantine(a) => WithLive(db, a, Quarantined, NeedsAttention)
    case ObserveYield(a) => WithAttempt(db, a, db.attempts[a].(yieldDelivered := true))
    case Finish(a, state) => Finalize(db, a, state, now)
    case ResolveGraph => Advance(db, now)
    case SchedulePass => Pass(db, now)
  }
}
