/** Every enabled step of the queue keeps the invariant. */
module QueueSteps {
  import opened Domain
  import opened Scheduler
  import opened PassProperties
  import opened Tables
  import opened Dependencies
  import opened Submissions
  import opened Transactions
  import opened QueueInvariant

  lemma InvLater(db: Db, before: int, now: int)
    requires Inv(db, before) && before <= now
    ensures Inv(db, now)
  {
  }

  lemma RowFact(db: Db, j: JobId)
    requires Core(db) && j in db.jobs
    ensures db.jobs[j].limit >= 1 && db.jobs[j].maxAttempts >= 1
  {
  }

  /** A live attempt's job is active, so no reservation protects it. */
  lemma LiveFact(db: Db, a: AttemptId, now: int)
    requires Core(db) && ReservationOk(db, now) && a in db.attempts && !db.attempts[a].state.IsTerminal()
    ensures AttemptOk(db, a) && a in db.leases && db.attempts[a].job in db.jobs && db.jobs[db.attempts[a].job].state.IsActive()
    ensures db.reservation.Some? ==> db.reservation.value.job != db.attempts[a].job && db.reservation.value.job in db.jobs
  {
    assert AttemptOk(db, a);
  }

  lemma PauseInv(db: Db, paused: bool, now: int)
    requires Inv(db, now)
    ensures Inv(db.(paused := paused), now)
  {
    CoreIgnoresReservation(db, db.(paused := paused));
  }

  /** States move neither into a terminal state nor back to waiting. */
  lemma SettledKept(db: Db, d: Db)
    requires Settled(db) && d.edges == db.edges && d.jobs.Keys == db.jobs.Keys
    requires forall j | j in db.jobs :: d.jobs[j].state.IsTerminal() ==> db.jobs[j].state.IsTerminal()
    requires forall j | j in db.jobs :: d.jobs[j].state.IsWaiting() ==> db.jobs[j].state.IsWaiting()
    ensures Settled(d)
  {
  }

  /** The protected job's row is untouched. */
  lemma ReservationFrame(db: Db, d: Db, now: int)
    requires ReservationOk(db, now)
    requires d.reservation == db.reservation && d.lastReservation == db.lastReservation
    requires d.readySeq >= db.readySeq && d.lastAttempt >= db.lastAttempt
    requires db.reservation.Some? ==> db.reservation.value.job in d.jobs
                                      && d.jobs[db.reservation.value.job] == db.jobs[db.reservation.value.job]
    ensures ReservationOk(d, now)
  {
  }

  lemma DropReservationOk(db: Db, j: JobId, now: int)
    requires Inv(db, now)
    ensures var d := DropReservation(db, j);
            Inv(d, now) && d.jobs == db.jobs && d.edges == db.edges && (d.reservation.Some? ==> d.reservation.value.job != j)
  {
    CoreIgnoresReservation(db, DropReservation(db, j));
  }

  lemma CoreIgnoresReservation(db: Db, d: Db)
    requires Core(db)
    requires d == db.(reservation := d.reservation, lastReservation := d.lastReservation, paused := d.paused)
    ensures Core(d)
  {
    forall a | a in d.attempts ensures AttemptOk(d, a) {
      assert AttemptOk(db, a);
    }
    KeepCounts(db, d);
    KeepActive(db, d);
    forall j | j in db.jobs ensures RowStep(db.jobs[j], d.jobs[j]) {
    }
    JobSideKept(db, d);
  }

  // -------------------------------------------------------------------------
  // Mutations
  // -------------------------------------------------------------------------

  /** A waiting job's row changes and stays waiting. */
  lemma WaitingRowInv(db: Db, j: JobId, job: Job, now: int)
    requires Inv(db, now) && j in db.jobs && db.jobs[j].state.IsWaiting() && job.state.IsWaiting()
    requires job.attemptCount == db.jobs[j].attemptCount && RowStep(db.jobs[j], job)
    requires db.reservation.Some? ==> db.reservation.value.job != j
    ensures Inv(WithJob(db, j, job), now)
  {
    hide AttemptSide, JobSide;
    WithJobCore(db, j, job);
    SettledKept(db, WithJob(db, j, job));
    ReservationFrame(db, WithJob(db, j, job), now);
  }

  lemma HoldInv(db: Db, j: JobId, now: int)
    requires Inv(db, now) && HoldJob(db, j).Accepted?
    ensures Inv(HoldJob(db, j).db, now)
  {
    DropReservationOk(db, j, now);
    WaitingRowInv(DropReservation(db, j), j, db.jobs[j].(state := Held), now);
  }

  lemma ReleaseInv(db: Db, j: JobId, now: int)
    requires Inv(db, now) && ReleaseJob(db, j).Accepted?
    ensures Inv(ReleaseJob(db, j).db, now)
  {
    WaitingRowInv(db, j, db.jobs[j].(state := Queued), now);
  }

  lemma PriorityInv(db: Db, j: JobId, priority: int, now: int)
    requires Inv(db, now) && SetJobPriority(db, j, priority).Accepted?
    ensures Inv(SetJobPriority(db, j, priority).db, now)
  {
    DropReservationOk(db, j, now);
    if db.jobs[j].priority != priority {
      var dropped := if db.jobs[j].state.Queued? then DropReservation(db, j) else db;
      WaitingRowInv(dropped, j, db.jobs[j].(priority := priority), now);
    }
  }

  lemma LimitInv(db: Db, j: JobId, limit: nat, now: int)
    requires Inv(db, now) && SetLimit(db, j, limit).Accepted?
    ensures Inv(SetLimit(db, j, limit).db, now)
  {
    hide AttemptSide, JobSide, ReservationOk;
    if db.jobs[j].limit != limit {
      if db.jobs[j].state.IsWaiting() {
        RowFact(db, j);
        DropReservationOk(db, j, now);
        WaitingRowInv(DropReservation(db, j), j, db.jobs[j].(limit := limit), now);
      } else {
        var a := LiveAttempt(db, j).value;
        LiveFact(db, a, now);
        WithLimitCore(db, j, a, limit);
        SettledKept(db, WithLimit(db, j, a, limit));
        ReservationFrame(db, WithLimit(db, j, a, limit), now);
      }
    }
  }

  /** A job row changes in nothing that attempts, edges or the scheduler look at. */
  lemma PolicyRowInv(db: Db, j: JobId, job: Job, now: int)
    requires Inv(db, now) && j in db.jobs
    requires job == db.jobs[j].(timeLimit := job.timeLimit, timeLimitSetAt := job.timeLimitSetAt)
    ensures Inv(WithJob(db, j, job), now)
  {
    var d := WithJob(db, j, job);
    PolicyRowAttempts(db, j, job);
    assert JobSide(d) by {
      RowFact(db, j);
      WithJobSide(db, d, j);
    }
    SettledKept(db, d);
  }

  lemma PolicyRowAttempts(db: Db, j: JobId, job: Job)
    requires AttemptSide(db) && j in db.jobs
    requires job == db.jobs[j].(timeLimit := job.timeLimit, timeLimitSetAt := job.timeLimitSetAt)
    ensures AttemptSide(WithJob(db, j, job))
  {
    var d := WithJob(db, j, job);
    forall a | a in d.attempts ensures AttemptOk(d, a) {
      assert AttemptOk(db, a);
    }
    KeepCounts(db, d);
    KeepActive(db, d);
  }

  lemma TimeLimitInv(db: Db, j: JobId, timeLimit: Option<nat>, now: int)
    requires Inv(db, now) && SetJobTimeLimit(db, j, timeLimit, now).Accepted?
    ensures Inv(SetJobTimeLimit(db, j, timeLimit, now).db, now)
  {
    hide Core, Settled, ReservationOk;
    if db.jobs[j].timeLimit != timeLimit {
      PolicyRowInv(db, j, db.jobs[j].(timeLimit := timeLimit, timeLimitSetAt := Some(now)), now);
    }
  }

  lemma RetryInv(db: Db, j: JobId, now: int)
    requires Inv(db, now) && RetryJob(db, j, now).Accepted?
    ensures Inv(RetryJob(db, j, now).db, now)
  {
    var job := db.jobs[j].(state := Queued, retryNotBefore := None, readySeq := None);
    WithJobCore(db, j, job);
    ReservationFrame(db, WithJob(db, j, job), now);
    AdvanceInv(WithJob(db, j, job), now);
  }

  lemma CancelInv(db: Db, j: JobId, force: bool, now: int)
    requires Inv(db, now) && CancelJob(db, j, force, now).Accepted?
    ensures Inv(CancelJob(db, j, force, now).db, now)
  {
    hide AttemptSide, JobSide, Settled;
    RowFact(db, j);
    if db.jobs[j].state.IsWaiting() {
      var dropped := DropReservation(db, j);
      DropReservationOk(db, j, now);
      var job := db.jobs[j].(state := JobState.Cancelled);
      WithJobCore(dropped, j, job);
      ReservationFrame(dropped, WithJob(dropped, j, job), now);
      AdvanceInv(WithJob(dropped, j, job), now);
    } else {
      var a := LiveAttempt(db, j).value;
      var flagged := WithAttempt(db, a, db.attempts[a].(cancelRequested := true));
      FlagInv(db, a, db.attempts[a].(cancelRequested := true), now);
      if db.attempts[a].state.Prepared? {
        CloseInv(flagged, a, AttemptState.Cancelled, db.jobs[j].(state := JobState.Cancelled), now);
      }
    }
  }

  lemma FlagInv(db: Db, a: AttemptId, t: Attempt, now: int)
    requires Inv(db, now) && a in db.attempts && !db.attempts[a].state.IsTerminal()
    requires t.job == db.attempts[a].job && t.state == db.attempts[a].state && t.limit == db.attempts[a].limit
    ensures Inv(WithAttempt(db, a, t), now)
  {
    hide AttemptSide, JobSide, Settled, ReservationOk;
    LiveFact(db, a, now);
    WithAttemptCore(db, a, t);
    SettledKept(db, WithAttempt(db, a, t));
    ReservationFrame(db, WithAttempt(db, a, t), now);
  }

  /** Ending an attempt and resolving what depends on its job. */
  lemma CloseInv(db: Db, a: AttemptId, state: AttemptState, job: Job, now: int)
    requires Inv(db, now) && a in db.attempts && !db.attempts[a].state.IsTerminal() && state.IsTerminal()
    requires db.attempts[a].job in db.jobs && !job.state.IsActive()
    requires job.attemptCount == db.jobs[db.attempts[a].job].attemptCount && RowStep(db.jobs[db.attempts[a].job], job)
    ensures a in db.leases && Inv(Advance(Close(db, a, state, job), now), now)
  {
    hide AttemptSide, JobSide, Settled, ReservationOk;
    LiveFact(db, a, now);
    CloseCore(db, a, state, job);
    ReservationFrame(db, Close(db, a, state, job), now);
    AdvanceInv(Close(db, a, state, job), now);
  }

  lemma RecoverInv(db: Db, j: JobId, number: nat, how: ResolveAs, alive: bool, now: int)
    requires Inv(db, now) && ResolveRecovery(db, j, number, how, alive, now).Accepted?
    ensures Inv(ResolveRecovery(db, j, number, how, alive, now).db, now)
  {
    hide AttemptSide, JobSide, Settled, ReservationOk;
    var a := ByNumber(db, j, number, db.lastAttempt).value;
    RowFact(db, j);
    LiveFact(db, a, now);
    match how
    case AsLost => CloseInv(db, a, AttemptState.Lost, db.jobs[j].(state := JobState.Lost), now);
    case AsCancelled => CloseInv(db, a, AttemptState.Cancelled, db.jobs[j].(state := JobState.Cancelled), now);
  }

  lemma MutationInv(db: Db, op: Op, now: int)
    requires Inv(db, now) && Apply(db, op, now).Accepted?
    ensures Inv(Apply(db, op, now).db, now)
  {
    hide Core, Settled, ReservationOk;
    match op
    case Submit(params) => SubmitInv(db, params, now);
    case Cancel(j, force) => CancelInv(db, j, force, now);
    case Yield(j, hold) =>
      var a := LiveAttempt(db, j).value;
      FlagInv(db, a, db.attempts[a].(yieldRequested := true, yieldHold := hold), now);
    case Hold(j) => HoldInv(db, j, now);
    case Release(j) => ReleaseInv(db, j, now);
    case Retry(j) => RetryInv(db, j, now);
    case SetMaxParallelRuns(j, limit) => LimitInv(db, j, limit, now);
    case SetPriority(j, priority) => PriorityInv(db, j, priority, now);
    case SetTimeLimit(j, timeLimit) => TimeLimitInv(db, j, timeLimit, now);
    case RecoverResolve(j, number, how, alive) => RecoverInv(db, j, number, how, alive, now);
    case Pause => PauseInv(db, true, now);
    case Unpause => PauseInv(db, false, now);
  }

  // -------------------------------------------------------------------------
  // Reconciliation
  // -------------------------------------------------------------------------

  lemma LiveInv(db: Db, a: AttemptId, state: AttemptState, jobState: JobState, now: int)
    requires Inv(db, now) && a in db.attempts && !db.attempts[a].state.IsTerminal()
    requires !state.IsTerminal() && StatesAgree(jobState, state)
    ensures db.attempts[a].job in db.jobs && Inv(WithLive(db, a, state, jobState), now)
  {
    hide AttemptSide, JobSide, ReservationOk;
    LiveFact(db, a, now);
    WithLiveCore(db, a, state, jobState);
    SettledKept(db, WithLive(db, a, state, jobState));
    ReservationFrame(db, WithLive(db, a, state, jobState), now);
  }

  lemma FinalizeInv(db: Db, a: AttemptId, state: AttemptState, now: int)
    requires Inv(db, now) && Enabled(db, Finish(a, state))
    ensures Inv(Finalize(db, a, state, now), now)
  {
    hide AttemptSide, JobSide, Settled, ReservationOk;
    LiveFact(db, a, now);
    var job := db.jobs[db.attempts[a].job];
    RowFact(db, db.attempts[a].job);
    CloseInv(db, a, state, JobAfter(job, db.attempts[a], state, Used(db, a, state), now), now);
  }

  // -------------------------------------------------------------------------
  // The scheduling pass
  // -------------------------------------------------------------------------

  /** Distinct eligible jobs can all be started. */
  lemma {:induction false} StartAllCore(db: Db, starts: seq<Start>)
    requires Core(db) && Distinct(starts)
    requires forall s | s in starts :: s.job in db.jobs && db.jobs[s.job].state.Queued? && db.jobs[s.job].readySeq.Some?
    ensures Core(StartAll(db, starts))
    decreases |starts|
  {
    if starts != [] {
      assert starts[0] in starts;
      StartJobCore(db, starts[0].job);
      forall i | 0 <= i < |starts[1..]| ensures starts[1..][i] in starts && starts[1..][i].job != starts[0].job {
        assert starts[1..][i] == starts[i + 1];
      }
      StartAllCore(StartJob(db, starts[0].job), starts[1..]);
    }
  }

  /** Starting changes only the started jobs' rows and adds one attempt each. */
  lemma {:induction false} StartAllFrame(db: Db, starts: seq<Start>)
    requires Startable(db, starts)
    ensures var d := StartAll(db, starts);
            && d == db.(jobs := d.jobs, attempts := d.attempts, leases := d.leases, lastAttempt := d.lastAttempt)
            && d.lastAttempt == db.lastAttempt + |starts| && d.jobs.Keys == db.jobs.Keys
            && (forall j | j in db.jobs && j !in StartedJobs(starts) :: d.jobs[j] == db.jobs[j])
            && (forall j | j in db.jobs && j in StartedJobs(starts) :: d.jobs[j].state.Starting? && d.jobs[j].readySeq == db.jobs[j].readySeq)
    decreases |starts|
  {
    if starts != [] {
      assert starts[0] in starts;
      StartAllFrame(StartJob(db, starts[0].job), starts[1..]);
      ConsStart(starts[0], starts[1..], 0);
      assert [starts[0]] + starts[1..] == starts;
    }
  }

  /** The facts about the plan that committing it relies on. */
  lemma PlanFacts(db: Db, now: int)
    requires Core(db)
    ensures var plan := PassPlan(db, now);
            && UniqueJobs(EligibleCandidates(db, now))
            && (forall s | s in plan.starts :: IsEligible(db, s.job, now)) && Distinct(plan.starts) && Startable(db, plan.starts)
            && ReservationsCommit(plan, ActiveLeases(db), EligibleCandidates(db, now), Snapshot(db))
            && BypassesCommit(plan, EligibleCandidates(db, now), Snapshot(db))
  {
    var eligible := EligibleCandidates(db, now);
    EligibleFacts(db, now);
    PassAdmits(ActiveLeases(db), eligible, Snapshot(db));
    PassCommits(ActiveLeases(db), eligible, Snapshot(db));
  }

  lemma PassCore(db: Db, now: int)
    requires Core(db)
    ensures Core(Pass(db, now))
  {
    if !db.paused {
      PlanFacts(db, now);
      var plan := PassPlan(db, now);
      StartAllCore(db, plan.starts);
      StartAllFrame(db, plan.starts);
      CoreIgnoresReservation(StartAll(db, plan.starts), Pass(db, now));
    }
  }

  lemma BlockersBelow(db: Db, starts: seq<Start>, protected: JobId)
    requires AttemptSide(db)
    ensures forall a | a in Blockers(db, starts, protected) :: a <= db.lastAttempt + |starts|
  {
  }

  lemma PassReservation(db: Db, now: int)
    requires Core(db) && ReservationOk(db, now)
    ensures ReservationOk(Pass(db, now), now)
  {
    hide AttemptSide, ScanPass, ActiveLeases, EligibleCandidates, BypassesCommit, EdgesOk, LatchesOk, PrerequisitesOk, RowsOk,
         StartAll, Blockers;
    if !db.paused {
      PlanFacts(db, now);
      EligibleFacts(db, now);
      var plan := PassPlan(db, now);
      StartAllFrame(db, plan.starts);
      var d := Pass(db, now);
      if d.reservation.Some? {
        var job := d.reservation.value.job;
        assert Surviving(plan, Snapshot(db)) == Some(job);
        assert IsEligible(db, job, now) && d.jobs[job] == db.jobs[job];
        BlockersBelow(db, plan.starts, job);
      }
    }
  }

  lemma PassInv(db: Db, now: int)
    requires Inv(db, now)
    ensures Inv(Pass(db, now), now)
  {
    hide Core;
    PassCore(db, now);
    PassReservation(db, now);
    if !db.paused {
      PlanFacts(db, now);
      StartAllFrame(db, PassPlan(db, now).starts);
      SettledKept(db, Pass(db, now));
    }
  }

  // -------------------------------------------------------------------------
  // All steps
  // -------------------------------------------------------------------------

  lemma StepInv(db: Db, step: Step, before: int, now: int)
    requires Inv(db, before) && before <= now && Enabled(db, step)
    ensures Inv(Next(db, step, now), now)
  {
    hide Core, Settled, ReservationOk;
    InvLater(db, before, now);
    match step
    case Mutate(op) =>
      if Apply(db, op, now).Accepted? {
        MutationInv(db, op, now);
      }
    case MarkAuthorized(a) => LiveInv(db, a, Authorized, Starting, now);
    case MarkRunning(a) => LiveInv(db, a, AttemptState.Running, JobState.Running, now);
    case MarkOrphaned(a) => LiveInv(db, a, Orphaned, NeedsAttention, now);
    case Quarantine(a) => LiveInv(db, a, Quarantined, NeedsAttention, now);
    case ObserveYield(a) => FlagInv(db, a, db.attempts[a].(yieldDelivered := true), now);
    case Finish(a, state) => FinalizeInv(db, a, state, now);
    case ResolveGraph => AdvanceInv(db, now);
    case SchedulePass => PassInv(db, now);
  }
}
