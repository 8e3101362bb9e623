/**
 Two quantities bounded over every run: how far the active set exceeds the
 declared limits, and how often a job may fail.
 */
module QueueBudgets {
  import opened Domain
  import opened Scheduler
  import opened PassProperties
  import opened Tables
  import opened Dependencies
  import opened Submissions
  import opened Transactions
  import opened QueueInvariant
  import opened QueueSteps
  import opened QueueMotion
  import opened QueueRuns

  // -------------------------------------------------------------------------
  // Over-admission
  // -------------------------------------------------------------------------

  /** The active set exceeds no member's limit by more than `excess`. */
  ghost predicate OverBy(db: Db, excess: nat) {
    forall a | a in ActiveSet(db) :: |ActiveSet(db)| <= db.leases[a].limit + excess
  }

  /** An operator lowers the limit of a job that holds a lease. */
  predicate LowersLiveLimit(db: Db, step: Step) {
    step.Mutate? && step.op.SetMaxParallelRuns? && step.op.job in db.jobs
    && db.jobs[step.op.job].state.IsActive() && step.op.limit < db.jobs[step.op.job].limit
  }

  /** Leases are only released; unreleased ones keep or raise their limit. */
  ghost predicate LeasesShrink(db: Db, d: Db) {
    && d.leases.Keys == db.leases.Keys
    && forall a | a in db.leases :: d.leases[a].limit >= db.leases[a].limit && (db.leases[a].released ==> d.leases[a].released)
  }

  lemma ShrinkKeepsOver(db: Db, d: Db, excess: nat)
    requires LeasesShrink(db, d) && OverBy(db, excess)
    ensures OverBy(d, excess)
  {
    assert ActiveSet(d) <= ActiveSet(db);
    SubsetCount(ActiveSet(d), ActiveSet(db));
  }

  lemma AdvanceLeases(db: Db, now: int)
    ensures Advance(db, now).leases == db.leases && Advance(db, now).attempts == db.attempts
  {
    AdvanceFrame(db, now);
  }

  lemma CancelShrinks(db: Db, j: JobId, force: bool, now: int)
    requires CancelJob(db, j, force, now).Accepted?
    ensures LeasesShrink(db, CancelJob(db, j, force, now).db)
  {
    hide Advance;
    var job := db.jobs[j];
    if job.state.IsWaiting() {
      AdvanceLeases(WithJob(DropReservation(db, j), j, job.(state := JobState.Cancelled)), now);
    } else {
      var a := LiveAttempt(db, j).value;
      var flagged := WithAttempt(db, a, db.attempts[a].(cancelRequested := true));
      if db.attempts[a].state.Prepared? {
        AdvanceLeases(Close(flagged, a, AttemptState.Cancelled, job.(state := JobState.Cancelled)), now);
      }
    }
  }

  lemma RecoverShrinks(db: Db, j: JobId, number: nat, how: ResolveAs, alive: bool, now: int)
    requires ResolveRecovery(db, j, number, how, alive, now).Accepted?
    ensures LeasesShrink(db, ResolveRecovery(db, j, number, how, alive, now).db)
  {
    hide Advance;
    var a := ByNumber(db, j, number, db.lastAttempt).value;
    AdvanceLeases(Close(db, a, AttemptState.Lost, db.jobs[j].(state := JobState.Lost)), now);
    AdvanceLeases(Close(db, a, AttemptState.Cancelled, db.jobs[j].(state := JobState.Cancelled)), now);
  }

  lemma LimitShrinks(db: Db, j: JobId, limit: nat, now: int)
    requires Inv(db, now) && SetLimit(db, j, limit).Accepted? && !LowersLiveLimit(db, Mutate(SetMaxParallelRuns(j, limit)))
    ensures LeasesShrink(db, SetLimit(db, j, limit).db)
  {
    hide JobSide, Settled, AttemptSide;
    if db.jobs[j].limit != limit && !db.jobs[j].state.IsWaiting() {
      LiveFact(db, LiveAttempt(db, j).value, now);
    }
  }

  lemma MutationShrinks(db: Db, op: Op, now: int)
    requires Inv(db, now) && Apply(db, op, now).Accepted? && !LowersLiveLimit(db, Mutate(op))
    ensures LeasesShrink(db, Apply(db, op, now).db)
  {
    hide Core, Settled, ReservationOk, Advance, Collapse, SomeoneAhead, CancelJob, SetLimit, ResolveRecovery;
    match op
    case Submit(params) => AdvanceLeases(InsertJob(db, params), now);
    case Cancel(j, force) => CancelShrinks(db, j, force, now);
    case Retry(j) => AdvanceLeases(WithJob(db, j, db.jobs[j].(state := Queued, retryNotBefore := None, readySeq := None)), now);
    case RecoverResolve(j, number, how, alive) => RecoverShrinks(db, j, number, how, alive, now);
    case SetMaxParallelRuns(j, limit) => LimitShrinks(db, j, limit, now);
    case _ =>
  }

  lemma StepShrinks(db: Db, step: Step, now: int)
    requires Inv(db, now) && Enabled(db, step) && !step.SchedulePass? && !LowersLiveLimit(db, step)
    ensures LeasesShrink(db, Next(db, step, now))
  {
    hide Core, Settled, ReservationOk, Advance, Apply;
    match step
    case Mutate(op) =>
      if Apply(db, op, now).Accepted? {
        MutationShrinks(db, op, now);
      }
    case Finish(a, state) =>
      var job := db.jobs[db.attempts[a].job];
      var after := if job.state.IsTerminal() then job else JobAfter(job, db.attempts[a], state, Used(db, a, state), now);
      AdvanceLeases(Close(db, a, state, after), now);
    case ResolveGraph => AdvanceLeases(db, now);
    case _ =>
  }

  lemma {:induction false} StartAllCount(db: Db, starts: seq<Start>)
    requires Startable(db, starts) && LeaseIdsOk(db)
    ensures LeaseIdsOk(StartAll(db, starts)) && |ActiveSet(StartAll(db, starts))| == |ActiveSet(db)| + |starts|
    decreases |starts|
  {
    if starts != [] {
      assert starts[0] in starts;
      var one := StartJob(db, starts[0].job);
      assert ActiveSet(one) == ActiveSet(db) + {db.lastAttempt + 1} && db.lastAttempt + 1 !in db.leases;
      StartAllCount(one, starts[1..]);
    }
  }

  lemma {:induction false} ShadowHas(limits: seq<nat>, starts: seq<Start>, eligible: seq<Candidate>)
    requires AllListed(starts, eligible)
    ensures var shadow := Shadow(limits, starts, eligible);
            && (forall l | l in limits :: l in shadow)
            && (forall s | s in starts :: Lookup(eligible, s.job).limit in shadow)
    decreases |starts|
  {
    if starts != [] {
      assert starts[0] in starts;
      var l := Lookup(eligible, starts[0].job).limit;
      ShadowHas(limits + [l], starts[1..], eligible);
      assert l in limits + [l];
    }
  }

  /** Leases held before the starts keep their limit. */
  lemma OldLimits(db: Db, starts: seq<Start>, shadow: seq<nat>)
    requires Startable(db, starts) && LeaseIdsOk(db) && forall l | l in Limits(ActiveLeases(db)) :: l in shadow
    ensures var d := StartAll(db, starts); forall a | a in ActiveSet(d) && a <= db.lastAttempt :: d.leases[a].limit in shadow
  {
    hide StartAll, ActiveLeases, Limits;
    StartAllOld(db, starts);
    ActiveLimitsFacts(db);
    var d := StartAll(db, starts);
    forall a | a in ActiveSet(d) && a <= db.lastAttempt ensures d.leases[a].limit in shadow {
      assert a in ActiveSet(db);
    }
  }

  /** New leases carry the limit of the job started. */
  lemma NewLimits(db: Db, starts: seq<Start>, shadow: seq<nat>)
    requires Startable(db, starts) && Distinct(starts) && LeaseIdsOk(db)
    requires forall s | s in starts :: db.jobs[s.job].limit in shadow
    ensures var d := StartAll(db, starts); forall a | a in ActiveSet(d) && a > db.lastAttempt :: d.leases[a].limit in shadow
  {
    hide StartAll, Distinct;
    var d := StartAll(db, starts);
    StartAllCount(db, starts);
    StartAllFrame(db, starts);
    forall a | a in ActiveSet(d) && a > db.lastAttempt ensures d.leases[a].limit in shadow {
      var k := a - db.lastAttempt - 1;
      StartAllNew(db, starts, k);
      assert starts[k] in starts;
    }
  }

  /** The limits the planner counted are those of the active leases and of the jobs it starts. */
  lemma PlannedLimits(db: Db, now: int)
    requires Core(db)
    ensures var eligible, active, starts := EligibleCandidates(db, now), ActiveLeases(db), PassPlan(db, now).starts;
            && Startable(db, starts) && Distinct(starts) && AllListed(starts, eligible)
            && var shadow := Shadow(Limits(active), starts, eligible);
               && |shadow| == |active| + |starts| && (starts != [] ==> WithinLimits(shadow))
               && (forall l | l in Limits(active) :: l in shadow)
               && (forall s | s in starts :: db.jobs[s.job].limit in shadow)
  {
    hide AttemptSide, ScanPass, ActiveLeases, EligibleCandidates, BypassesCommit, ReservationsCommit, Shadow, Limits, Admitted, WithinLimits;
    var eligible, active, starts := EligibleCandidates(db, now), ActiveLeases(db), PassPlan(db, now).starts;
    PlanFacts(db, now);
    EligibleFacts(db, now);
    PassAdmits(active, eligible, Snapshot(db));
    ShadowHas(Limits(active), starts, eligible);
    forall s | s in starts ensures db.jobs[s.job].limit == Lookup(eligible, s.job).limit {
      assert IsEligible(db, s.job, now);
    }
  }

  /** A pass that starts anything ends with every active job within its limit. */
  lemma PassWithinLimits(db: Db, now: int)
    requires Core(db) && !db.paused && PassPlan(db, now).starts != []
    ensures OverBy(Pass(db, now), 0)
  {
    hide JobSide, AttemptsOk, OneLive, ActiveOk, CountsOk, ScanPass, ActiveLeases, EligibleCandidates, Shadow, Limits, StartAll,
         AllListed, Distinct, NextReservation, Snapshot, PendingFreeze;
    var eligible, active, starts := EligibleCandidates(db, now), ActiveLeases(db), PassPlan(db, now).starts;
    PlannedLimits(db, now);
    var shadow := Shadow(Limits(active), starts, eligible);
    OldLimits(db, starts, shadow);
    NewLimits(db, starts, shadow);
    StartAllCount(db, starts);
    ActiveRowFacts(db);
    assert Pass(db, now).leases == StartAll(db, starts).leases;
  }

  lemma PassKeepsOver(db: Db, now: int, excess: nat)
    requires Core(db) && OverBy(db, excess)
    ensures OverBy(Pass(db, now), excess)
  {
    hide Core, ScanPass, ActiveLeases, EligibleCandidates, BypassesCommit, ReservationsCommit;
    if !db.paused {
      if PassPlan(db, now).starts != [] {
        PassWithinLimits(db, now);
      } else {
        assert Pass(db, now).leases == db.leases;
      }
    }
  }

  /** The excess of the active set never rises, except when an operator lowers the
      limit of a job that is running. */
  lemma RunExcess(states: seq<Db>, steps: seq<Timed>, i: nat, excess: nat)
    requires FromEmpty(states, steps) && i < |steps| && OverBy(states[i], excess)
    requires !LowersLiveLimit(states[i], steps[i].step)
    ensures OverBy(states[i + 1], excess)
    ensures StartsOf(states[i], steps[i].step, steps[i].now) != [] ==> OverBy(states[i + 1], 0)
  {
    hide Core, Settled, ReservationOk, OverBy, Apply, Advance, Finalize, Pass;
    var db, step, now := states[i], steps[i].step, steps[i].now;
    RunKeepsInv(states, steps, i, now);
    if step.SchedulePass? {
      PassKeepsOver(db, now, excess);
      if StartsOf(db, step, now) != [] {
        PassWithinLimits(db, now);
      }
    } else {
      StepShrinks(db, step, now);
      ShrinkKeepsOver(db, states[i + 1], excess);
    }
  }

  /** Without such an edit, no reachable active set ever exceeds a declared limit. */
  lemma {:induction false} RunNeverOver(states: seq<Db>, steps: seq<Timed>, i: nat)
    requires FromEmpty(states, steps) && i < |states|
    requires forall k | 0 <= k < i :: !LowersLiveLimit(states[k], steps[k].step)
    ensures OverBy(states[i], 0)
    decreases i
  {
    hide Next, LowersLiveLimit;
    if i > 0 {
      RunNeverOver(states, steps, i - 1);
      RunExcess(states, steps, i - 1, 0);
    }
  }

  // -------------------------------------------------------------------------
  // The retry budget
  // -------------------------------------------------------------------------

  /** An accepted manual retry of `j`. */
  predicate RetriesJob(db: Db, step: Step, now: int, j: JobId) {
    step.Mutate? && step.op == Retry(j) && Apply(db, step.op, now).Accepted?
  }

  ghost function RetryCount(states: seq<Db>, steps: seq<Timed>, j: JobId, i: nat): nat
    requires IsRun(states, steps) && i < |states|
  {
    if i == 0 then 0
    else RetryCount(states, steps, j, i - 1)
         + if RetriesJob(states[i - 1], steps[i - 1].step, steps[i - 1].now, j) then 1 else 0
  }

  function Failures(db: Db, j: JobId): nat {
    |AttemptsIn(db, j, AttemptState.Failed)|
  }

  /** The last allowed failure ends the job. */
  ghost predicate WithinBudget(db: Db, j: JobId, retries: nat) {
    j in db.jobs ==> Failures(db, j) <= db.jobs[j].maxAttempts - 1 + retries + if db.jobs[j].state.IsTerminal() then 1 else 0
  }

  /** Nothing that counts for the budget of `j` moves. */
  ghost predicate BudgetFrame(db: Db, d: Db, j: JobId) {
    && (j in d.jobs ==> Failures(d, j) == Failures(db, j))
    && (j in d.jobs && j !in db.jobs ==> Failures(d, j) == 0 && d.jobs[j].maxAttempts >= 1)
    && (j in db.jobs ==> j in d.jobs && d.jobs[j].maxAttempts == db.jobs[j].maxAttempts
                         && (db.jobs[j].state.IsTerminal() ==> d.jobs[j].state.IsTerminal()))
  }

  lemma FailuresSame(db: Db, d: Db, j: JobId)
    requires d.attempts.Keys == db.attempts.Keys
    requires forall a | a in db.attempts ::
               d.attempts[a].job == db.attempts[a].job && (d.attempts[a].state.Failed? <==> db.attempts[a].state.Failed?)
    ensures Failures(d, j) == Failures(db, j)
  {
    assert AttemptsIn(d, j, AttemptState.Failed) == AttemptsIn(db, j, AttemptState.Failed);
  }

  lemma AdvanceBudget(db: Db, now: int, j: JobId)
    ensures Failures(Advance(db, now), j) == Failures(db, j)
    ensures j in db.jobs <==> j in Advance(db, now).jobs
    ensures j in db.jobs ==>
              var r := Advance(db, now).jobs[j];
              r.maxAttempts == db.jobs[j].maxAttempts && (db.jobs[j].state.IsTerminal() ==> r.state.IsTerminal())
              && (!db.jobs[j].state.IsWaiting() ==> r.state == db.jobs[j].state)
  {
    AdvanceLeases(db, now);
    FailuresSame(db, Advance(db, now), j);
    var s := Settle(db, now);
    AssignReadyFrame(s, ReadySet(s, now), s.lastJob);
  }

  lemma MutationBudget(db: Db, op: Op, now: int, j: JobId)
    requires Inv(db, now) && Apply(db, op, now).Accepted? && op != Retry(j)
    ensures BudgetFrame(db, Apply(db, op, now).db, j)
  {
    hide Core, Settled, ReservationOk, SubmitJob, CancelJob, YieldJob, HoldJob, ReleaseJob, RetryJob, SetLimit, SetJobPriority,
         ResolveRecovery, BudgetFrame;
    match op
    case Submit(params) => SubmitBudget(db, params, now, j);
    case Cancel(i, force) => CancelBudget(db, i, force, now, j);
    case Retry(i) => RetryOtherBudget(db, i, now, j);
    case RecoverResolve(i, number, how, alive) => RecoverBudget(db, i, number, how, alive, now, j);
    case SetMaxParallelRuns(i, limit) => LimitBudget(db, i, limit, j);
    case Yield(i, hold) => YieldBudget(db, i, hold, now, j);
    case _ => EditBudget(db, op, now, j);
  }

  lemma RetryOtherBudget(db: Db, i: JobId, now: int, j: JobId)
    requires RetryJob(db, i, now).Accepted? && i != j
    ensures BudgetFrame(db, RetryJob(db, i, now).db, j)
  {
    hide Advance, Failures;
    var mid := WithJob(db, i, db.jobs[i].(state := Queued, retryNotBefore := None, readySeq := None));
    FailuresSame(db, mid, j);
    AdvanceBudget(mid, now, j);
  }

  lemma LimitBudget(db: Db, i: JobId, limit: nat, j: JobId)
    requires SetLimit(db, i, limit).Accepted?
    ensures BudgetFrame(db, SetLimit(db, i, limit).db, j)
  {
    hide Failures;
    FailuresSame(db, SetLimit(db, i, limit).db, j);
  }

  lemma YieldBudget(db: Db, i: JobId, hold: bool, now: int, j: JobId)
    requires YieldJob(db, i, hold, now).Accepted?
    ensures BudgetFrame(db, YieldJob(db, i, hold, now).db, j)
  {
    hide Failures, SomeoneAhead;
    FailuresSame(db, YieldJob(db, i, hold, now).db, j);
  }

  /** Holds, releases, priorities and pauses end nothing. */
  lemma EditBudget(db: Db, op: Op, now: int, j: JobId)
    requires Apply(db, op, now).Accepted?
    requires op.Hold? || op.Release? || op.SetPriority? || op.SetTimeLimit? || op.Pause? || op.Unpause?
    ensures BudgetFrame(db, Apply(db, op, now).db, j)
  {
    hide Failures, SubmitJob, CancelJob, RetryJob, ResolveRecovery, YieldJob, SetLimit;
    var d := Apply(db, op, now).db;
    assert d.attempts == db.attempts;
    FailuresSame(db, d, j);
  }

  lemma RecoverBudget(db: Db, i: JobId, number: nat, how: ResolveAs, alive: bool, now: int, j: JobId)
    requires ResolveRecovery(db, i, number, how, alive, now).Accepted?
    ensures BudgetFrame(db, ResolveRecovery(db, i, number, how, alive, now).db, j)
  {
    hide Advance, Failures;
    var a := ByNumber(db, i, number, db.lastAttempt).value;
    var mid := match how
      case AsLost => Close(db, a, AttemptState.Lost, db.jobs[i].(state := JobState.Lost))
      case AsCancelled => Close(db, a, AttemptState.Cancelled, db.jobs[i].(state := JobState.Cancelled));
    FailuresSame(db, mid, j);
    AdvanceBudget(mid, now, j);
  }

  lemma SubmitBudget(db: Db, params: SubmitParams, now: int, j: JobId)
    requires Inv(db, now) && SubmitJob(db, params, now).Accepted?
    ensures BudgetFrame(db, SubmitJob(db, params, now).db, j)
  {
    hide Settled, ReservationOk, Advance, InsertJob, Failures, AttemptsOk, OneLive, ActiveOk, CountsOk, ReadyOk;
    var mid := InsertJob(db, params);
    InsertFrame(db, params);
    FailuresSame(db, mid, j);
    AdvanceBudget(mid, now, j);
    if j !in db.jobs {
      NoFailures(db, j);
    }
  }

  lemma NoFailures(db: Db, j: JobId)
    requires AttemptSide(db) && j !in db.jobs
    ensures Failures(db, j) == 0
  {
    forall a | a in db.attempts ensures db.attempts[a].job != j {
      assert AttemptOk(db, a);
    }
    assert AttemptsIn(db, j, AttemptState.Failed) == {};
  }

  lemma CancelBudget(db: Db, i: JobId, force: bool, now: int, j: JobId)
    requires Inv(db, now) && CancelJob(db, i, force, now).Accepted?
    ensures BudgetFrame(db, CancelJob(db, i, force, now).db, j)
  {
    hide JobSide, Settled, ReservationOk, Advance, OneLive, ActiveOk, CountsOk, AttemptsOk, Failures;
    var job := db.jobs[i];
    if job.state.IsWaiting() {
      var mid := WithJob(DropReservation(db, i), i, job.(state := JobState.Cancelled));
      FailuresSame(db, mid, j);
      AdvanceBudget(mid, now, j);
    } else {
      var a := LiveAttempt(db, i).value;
      var flagged := WithAttempt(db, a, db.attempts[a].(cancelRequested := true));
      FailuresSame(db, flagged, j);
      if db.attempts[a].state.Prepared? {
        var mid := Close(flagged, a, AttemptState.Cancelled, job.(state := JobState.Cancelled));
        FailuresSame(db, mid, j);
        AdvanceBudget(mid, now, j);
      }
    }
  }

  /** Failed and yielded attempts are different attempts of the job. */
  lemma FailedAndYielded(d: Db, j: JobId)
    ensures |AttemptsIn(d, j, AttemptState.Failed)| + |AttemptsIn(d, j, AttemptState.Yielded)| <= |AttemptsOf(d, j)|
  {
    var failed, yielded := AttemptsIn(d, j, AttemptState.Failed), AttemptsIn(d, j, AttemptState.Yielded);
    assert failed !! yielded;
    SubsetCount(failed + yielded, AttemptsOf(d, j));
  }

  lemma SameAttempts(db: Db, a: AttemptId, state: AttemptState, j: JobId)
    requires a in db.attempts
    ensures AttemptsOf(WithAttempt(db, a, db.attempts[a].(state := state)), j) == AttemptsOf(db, j)
  {
  }

  /** Attempts charged to the budget include every failure. */
  lemma UsedCoversFailures(db: Db, a: AttemptId, state: AttemptState)
    requires Core(db) && a in db.attempts && db.attempts[a].job in db.jobs
    ensures var j := db.attempts[a].job;
            |AttemptsIn(WithAttempt(db, a, db.attempts[a].(state := state)), j, AttemptState.Failed)| <= Used(db, a, state)
  {
    hide JobSide, AttemptsOk, OneLive, ActiveOk, AttemptsIn, AttemptsOf;
    var j := db.attempts[a].job;
    SameAttempts(db, a, state, j);
    FailedAndYielded(WithAttempt(db, a, db.attempts[a].(state := state)), j);
  }

  /** The job row after a failure is within budget of one failure more. */
  lemma FailedRow(db: Db, a: AttemptId, now: int, retries: nat)
    requires Core(db) && a in db.attempts && a in db.leases && !db.attempts[a].state.IsTerminal() && db.attempts[a].job in db.jobs
    requires !db.jobs[db.attempts[a].job].state.IsTerminal() && WithinBudget(db, db.attempts[a].job, retries)
    ensures var j := db.attempts[a].job;
            var after := JobAfter(db.jobs[j], db.attempts[a], AttemptState.Failed, Used(db, a, AttemptState.Failed), now);
            WithinBudget(Close(db, a, AttemptState.Failed, after), j, retries)
  {
    hide Core, Used;
    var j := db.attempts[a].job;
    var flipped := WithAttempt(db, a, db.attempts[a].(state := AttemptState.Failed));
    var after := JobAfter(db.jobs[j], db.attempts[a], AttemptState.Failed, Used(db, a, AttemptState.Failed), now);
    var mid := Close(db, a, AttemptState.Failed, after);
    UsedCoversFailures(db, a, AttemptState.Failed);
    assert AttemptsIn(mid, j, AttemptState.Failed) == AttemptsIn(flipped, j, AttemptState.Failed);
    assert AttemptsIn(mid, j, AttemptState.Failed) == AttemptsIn(db, j, AttemptState.Failed) + {a};
  }

  /** Any other outcome, or another job's, adds no failure to `j`. */
  lemma OtherRow(db: Db, a: AttemptId, state: AttemptState, job: Job, j: JobId, retries: nat)
    requires a in db.attempts && a in db.leases && !db.attempts[a].state.IsTerminal() && db.attempts[a].job in db.jobs
    requires db.attempts[a].job != j || !state.Failed?
    requires !db.jobs[db.attempts[a].job].state.IsTerminal() && job.maxAttempts == db.jobs[db.attempts[a].job].maxAttempts
    requires WithinBudget(db, j, retries)
    ensures WithinBudget(Close(db, a, state, job), j, retries)
  {
    var mid := Close(db, a, state, job);
    assert AttemptsIn(mid, j, AttemptState.Failed) == AttemptsIn(db, j, AttemptState.Failed);
  }

  lemma FinishBudget(db: Db, a: AttemptId, state: AttemptState, now: int, j: JobId, retries: nat)
    requires Inv(db, now) && Enabled(db, Finish(a, state)) && WithinBudget(db, j, retries)
    ensures WithinBudget(Finalize(db, a, state, now), j, retries)
  {
    hide Core, Settled, ReservationOk, Advance, Used, Failures, Close;
    LiveFact(db, a, now);
    var i := db.attempts[a].job;
    var after := JobAfter(db.jobs[i], db.attempts[a], state, Used(db, a, state), now);
    var mid := Close(db, a, state, after);
    AdvanceBudget(mid, now, j);
    if i == j && state.Failed? {
      FailedRow(db, a, now, retries);
    } else {
      OtherRow(db, a, state, after, j, retries);
    }
  }

  /** A retry makes a finished job waiting again and is counted. */
  lemma RetryBudget(db: Db, now: int, j: JobId, retries: nat)
    requires RetryJob(db, j, now).Accepted? && WithinBudget(db, j, retries)
    ensures WithinBudget(RetryJob(db, j, now).db, j, retries + 1)
  {
    var mid := WithJob(db, j, db.jobs[j].(state := Queued, retryNotBefore := None, readySeq := None));
    FailuresSame(db, mid, j);
    AdvanceBudget(mid, now, j);
  }

  lemma {:induction false} StartAllBudget(db: Db, starts: seq<Start>, j: JobId)
    requires Startable(db, starts) && LeaseIdsOk(db) && db.leases.Keys == db.attempts.Keys
    ensures Failures(StartAll(db, starts), j) == Failures(db, j)
    decreases |starts|
  {
    if starts != [] {
      assert starts[0] in starts;
      var one := StartJob(db, starts[0].job);
      assert db.lastAttempt + 1 !in db.leases;
      assert AttemptsIn(one, j, AttemptState.Failed) == AttemptsIn(db, j, AttemptState.Failed);
      StartAllBudget(one, starts[1..], j);
    }
  }

  lemma PassBudget(db: Db, now: int, j: JobId, retries: nat)
    requires Core(db) && WithinBudget(db, j, retries)
    ensures WithinBudget(Pass(db, now), j, retries)
  {
    hide JobSide, ScanPass, ActiveLeases, EligibleCandidates, BypassesCommit, ReservationsCommit, AttemptsOk, OneLive, ActiveOk, CountsOk;
    if !db.paused {
      PlanFacts(db, now);
      var starts := PassPlan(db, now).starts;
      StartAllBudget(db, starts, j);
      StartAllFrame(db, starts);
      StartAllKeepsMax(db, starts);
      FailuresSame(StartAll(db, starts), Pass(db, now), j);
      if j in db.jobs && j in StartedJobs(starts) {
        var s :| s in starts && s.job == j;
        assert IsEligible(db, s.job, now);
      }
    }
  }

  lemma StepBudget(db: Db, step: Step, now: int, j: JobId, retries: nat)
    requires Inv(db, now) && Enabled(db, step) && WithinBudget(db, j, retries)
    ensures WithinBudget(Next(db, step, now), j, retries + if RetriesJob(db, step, now, j) then 1 else 0)
  {
    hide Settled, ReservationOk, Core, Advance, Apply, Finalize, Pass, Failures, WithinBudget;
    match step
    case SchedulePass => PassBudget(db, now, j, retries);
    case Finish(a, state) => FinishBudget(db, a, state, now, j, retries);
    case Mutate(op) =>
      if !Apply(db, op, now).Accepted? {
      } else if op == Retry(j) {
        ApplyRetry(db, now, j);
        RetryBudget(db, now, j, retries);
      } else {
        MutationBudget(db, op, now, j);
        FrameBudget(db, Next(db, step, now), j, retries);
      }
    case _ =>
      OtherBudget(db, step, now, j);
      FrameBudget(db, Next(db, step, now), j, retries);
  }

  lemma ApplyRetry(db: Db, now: int, j: JobId)
    ensures Apply(db, Retry(j), now) == RetryJob(db, j, now)
  {
  }

  lemma FrameBudget(db: Db, d: Db, j: JobId, retries: nat)
    requires BudgetFrame(db, d, j) && WithinBudget(db, j, retries)
    ensures WithinBudget(d, j, retries)
  {
  }

  lemma OtherBudget(db: Db, step: Step, now: int, j: JobId)
    requires Inv(db, now) && Enabled(db, step) && !step.SchedulePass? && !step.Finish? && !step.Mutate?
    ensures BudgetFrame(db, Next(db, step, now), j)
  {
    hide Core, Settled, ReservationOk, Advance, Failures;
    match step
    case ResolveGraph => AdvanceBudget(db, now, j);
    case MarkAuthorized(a) => LiveBudget(db, a, Authorized, Starting, now, j);
    case MarkRunning(a) => LiveBudget(db, a, AttemptState.Running, JobState.Running, now, j);
    case MarkOrphaned(a) => LiveBudget(db, a, Orphaned, NeedsAttention, now, j);
    case Quarantine(a) => LiveBudget(db, a, Quarantined, NeedsAttention, now, j);
    case ObserveYield(a) => FailuresSame(db, Next(db, step, now), j);
  }

  lemma LiveBudget(db: Db, a: AttemptId, state: AttemptState, jobState: JobState, now: int, j: JobId)
    requires Inv(db, now) && a in db.attempts && !db.attempts[a].state.IsTerminal() && db.attempts[a].job in db.jobs
    requires StatesAgree(jobState, state)
    ensures BudgetFrame(db, WithLive(db, a, state, jobState), j)
  {
    hide Core, Settled, ReservationOk, Failures;
    LiveFact(db, a, now);
    FailuresSame(db, WithLive(db, a, state, jobState), j);
  }

  /** Over every run a job's failed attempts number at most its declared attempts
      plus its manual retries, however many attempts yield or are held after a lost yield. */
  lemma {:induction false} RunFailures(states: seq<Db>, steps: seq<Timed>, i: nat, j: JobId)
    requires FromEmpty(states, steps) && i < |states|
    ensures WithinBudget(states[i], j, RetryCount(states, steps, j, i))
    ensures j in states[i].jobs ==> Failures(states[i], j) <= states[i].jobs[j].maxAttempts + RetryCount(states, steps, j, i)
    decreases i
  {
    hide Next, Inv;
    if i > 0 {
      RunFailures(states, steps, i - 1, j);
      RunKeepsInv(states, steps, i - 1, steps[i - 1].now);
      StepBudget(states[i - 1], steps[i - 1].step, steps[i - 1].now, j, RetryCount(states, steps, j, i - 1));
    }
  }
}
