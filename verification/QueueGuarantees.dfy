/**
 Two guarantees to a job over whole runs: it is not left out of the readiness
 order when it may run, and it is not given up while it has budget left.
 */
module QueueGuarantees {
  import opened Domain
  import opened Scheduler
  import opened PassProperties
  import opened Tables
  import opened Dependencies
  import opened Submissions
  import opened Transactions
  import opened QueueInvariant
  import opened QueueSteps
  import opened QueueMotion
  import opened QueueRuns
  import opened QueueLaws

  // -------------------------------------------------------------------------
  // No job that may run is left out of the readiness order
  // -------------------------------------------------------------------------

  /** Every edge of `j` has latched as satisfied. */
  ghost predicate ParentsDone(db: Db, j: JobId) {
    forall p: JobId | (p, j) in db.edges :: db.edges[(p, j)].latch.Some? && db.edges[(p, j)].latch.value.resolution == Satisfied
  }

  ghost predicate Waits(db: Db, j: JobId) {
    j in db.jobs && (db.jobs[j].state == Queued || db.jobs[j].state == Held)
  }

  /** Waiting for nothing but admission, with no retry delay, means having a position. */
  ghost predicate Positioned(db: Db) {
    forall j | Waits(db, j) && db.jobs[j].retryNotBefore.None? && ParentsDone(db, j) :: db.jobs[j].readySeq.Some?
  }

  lemma AdvancePositions(db: Db, now: int)
    requires JobIdsOk(db)
    ensures Positioned(Advance(db, now))
    ensures var d := Advance(db, now);
            forall j | Waits(d, j) && (d.jobs[j].retryNotBefore.None? || d.jobs[j].retryNotBefore.value <= now) && ParentsDone(d, j) ::
              d.jobs[j].readySeq.Some?
  {
    hide Advance;
    var d := Advance(db, now);
    forall j | Waits(d, j) && (d.jobs[j].retryNotBefore.None? || d.jobs[j].retryNotBefore.value <= now) && ParentsDone(d, j)
      ensures d.jobs[j].readySeq.Some?
    {
      AdvanceReadies(db, now, j);
    }
  }

  /** Edges stay, and waiting rows keep position and delay. */
  lemma PositionsKept(db: Db, d: Db)
    requires Positioned(db) && d.edges == db.edges
    requires forall j | Waits(d, j) ::
               Waits(db, j) && d.jobs[j].readySeq == db.jobs[j].readySeq && d.jobs[j].retryNotBefore == db.jobs[j].retryNotBefore
    ensures Positioned(d)
  {
    forall j | Waits(d, j) && d.jobs[j].retryNotBefore.None? && ParentsDone(d, j) ensures d.jobs[j].readySeq.Some? {
      assert Waits(db, j) && ParentsDone(db, j);
    }
  }

  lemma MutationPositions(db: Db, op: Op, now: int)
    requires Inv(db, now) && Positioned(db) && Apply(db, op, now).Accepted?
    ensures Positioned(Apply(db, op, now).db)
  {
    hide Inv, Positioned, SubmitJob, CancelJob, ResolveRecovery, YieldJob, SetLimit, RetryJob, HoldJob, ReleaseJob, SetJobPriority, SetJobTimeLimit;
    match op
    case Submit(params) => SubmitPositions(db, params, now);
    case Cancel(j, force) => CancelPositions(db, j, force, now);
    case Yield(j, hold) => YieldPositions(db, j, hold, now);
    case SetMaxParallelRuns(j, limit) => LimitPositions(db, j, limit);
    case Retry(j) => RetryPositions(db, j, now);
    case RecoverResolve(j, number, how, alive) => ResolvePositions(db, j, number, how, alive, now);
    case _ => EditPositions(db, op, now);
  }

  lemma RetryPositions(db: Db, j: JobId, now: int)
    requires Inv(db, now) && RetryJob(db, j, now).Accepted?
    ensures Positioned(RetryJob(db, j, now).db)
  {
    hide Settled, ReservationOk, AttemptSide, Positioned, Advance;
    AdvancePositions(WithJob(db, j, db.jobs[j].(state := Queued, retryNotBefore := None, readySeq := None)), now);
  }

  lemma EditPositions(db: Db, op: Op, now: int)
    requires Positioned(db) && Apply(db, op, now).Accepted?
    requires op.Hold? || op.Release? || op.SetPriority? || op.SetTimeLimit? || op.Pause? || op.Unpause?
    ensures Positioned(Apply(db, op, now).db)
  {
    hide Positioned, SubmitJob, CancelJob, ResolveRecovery, YieldJob, SetLimit, RetryJob, LiveAttempt;
    PositionsKept(db, Apply(db, op, now).db);
  }

  lemma SubmitPositions(db: Db, params: SubmitParams, now: int)
    requires Inv(db, now) && SubmitJob(db, params, now).Accepted?
    ensures Positioned(SubmitJob(db, params, now).db)
  {
    hide Settled, ReservationOk, AttemptSide, Positioned, Advance, InsertJob;
    InsertFrame(db, params);
    AdvancePositions(InsertJob(db, params), now);
  }

  lemma CancelPositions(db: Db, j: JobId, force: bool, now: int)
    requires Inv(db, now) && Positioned(db) && CancelJob(db, j, force, now).Accepted?
    ensures Positioned(CancelJob(db, j, force, now).db)
  {
    hide Settled, ReservationOk, AttemptSide, Positioned, Advance;
    var job := db.jobs[j];
    if job.state.IsWaiting() {
      AdvancePositions(WithJob(DropReservation(db, j), j, job.(state := JobState.Cancelled)), now);
    } else {
      var a := LiveAttempt(db, j).value;
      var flagged := WithAttempt(db, a, db.attempts[a].(cancelRequested := true));
      if db.attempts[a].state.Prepared? {
        AdvancePositions(Close(flagged, a, AttemptState.Cancelled, job.(state := JobState.Cancelled)), now);
      } else {
        PositionsKept(db, flagged);
      }
    }
  }

  lemma YieldPositions(db: Db, j: JobId, hold: bool, now: int)
    requires Positioned(db) && YieldJob(db, j, hold, now).Accepted?
    ensures Positioned(YieldJob(db, j, hold, now).db)
  {
    hide Positioned, SomeoneAhead;
    PositionsKept(db, YieldJob(db, j, hold, now).db);
  }

  lemma LimitPositions(db: Db, j: JobId, limit: nat)
    requires Positioned(db) && SetLimit(db, j, limit).Accepted?
    ensures Positioned(SetLimit(db, j, limit).db)
  {
    hide Positioned;
    PositionsKept(db, SetLimit(db, j, limit).db);
  }

  lemma ResolvePositions(db: Db, j: JobId, number: nat, how: ResolveAs, alive: bool, now: int)
    requires Inv(db, now) && ResolveRecovery(db, j, number, how, alive, now).Accepted?
    ensures Positioned(ResolveRecovery(db, j, number, how, alive, now).db)
  {
    hide Settled, ReservationOk, AttemptSide, Positioned, Advance;
    var a := ByNumber(db, j, number, db.lastAttempt).value;
    AdvancePositions(Close(db, a, AttemptState.Lost, db.jobs[j].(state := JobState.Lost)), now);
    AdvancePositions(Close(db, a, AttemptState.Cancelled, db.jobs[j].(state := JobState.Cancelled)), now);
  }

  lemma FinishPositions(db: Db, a: AttemptId, state: AttemptState, now: int)
    requires Inv(db, now) && Enabled(db, Finish(a, state))
    ensures var d := Finalize(db, a, state, now);
            && Positioned(d)
            && forall j | Waits(d, j) && (d.jobs[j].retryNotBefore.None? || d.jobs[j].retryNotBefore.value <= now) && ParentsDone(d, j) ::
                 d.jobs[j].readySeq.Some?
  {
    hide Settled, ReservationOk, AttemptSide, Positioned, Advance, Used, ParentsDone;
    var job := db.jobs[db.attempts[a].job];
    var after := if job.state.IsTerminal() then job else JobAfter(job, db.attempts[a], state, Used(db, a, state), now);
    AdvancePositions(Close(db, a, state, after), now);
  }

  lemma PassPositions(db: Db, now: int)
    requires Inv(db, now) && Positioned(db)
    ensures Positioned(Pass(db, now))
  {
    hide Settled, ReservationOk, Core, Positioned, ScanPass, ActiveLeases, EligibleCandidates, BypassesCommit, ReservationsCommit,
         StartAll, NextReservation;
    if !db.paused {
      PlanFacts(db, now);
      StartAllFrame(db, PassPlan(db, now).starts);
      PositionsKept(db, Pass(db, now));
    }
  }

  lemma StepPositions(db: Db, step: Step, now: int)
    requires Inv(db, now) && Enabled(db, step) && Positioned(db)
    ensures Positioned(Next(db, step, now))
  {
    hide Settled, ReservationOk, AttemptSide, Positioned, Advance, Apply, Pass, Finalize;
    match step
    case Mutate(op) =>
      if Apply(db, op, now).Accepted? {
        MutationPositions(db, op, now);
      }
    case Finish(a, state) => FinishPositions(db, a, state, now);
    case ResolveGraph => AdvancePositions(db, now);
    case SchedulePass => PassPositions(db, now);
    case _ => PositionsKept(db, Next(db, step, now));
  }

  /** In every reachable state a queued or held job without a retry delay whose edges are all satisfied
      has a place in the readiness order; after every end of an attempt and every resolution of the graph
      so has every such job whose delay has passed. */
  lemma {:induction false} RunPositions(states: seq<Db>, steps: seq<Timed>, i: nat)
    requires FromEmpty(states, steps) && i < |states|
    ensures Positioned(states[i])
    ensures i > 0 && (steps[i - 1].step.Finish? || steps[i - 1].step.ResolveGraph?) ==>
              forall j | && Waits(states[i], j) && ParentsDone(states[i], j)
                         && (states[i].jobs[j].retryNotBefore.None? || states[i].jobs[j].retryNotBefore.value <= steps[i - 1].now) ::
                states[i].jobs[j].readySeq.Some?
    decreases i
  {
    hide Inv, Positioned, Finalize, Advance, ParentsDone;
    if i > 0 {
      var db, step, now := states[i - 1], steps[i - 1].step, steps[i - 1].now;
      RunPositions(states, steps, i - 1);
      RunKeepsInv(states, steps, i - 1, now);
      StepPositions(db, step, now);
      if step.Finish? {
        FinishPositions(db, step.attempt, step.state, now);
      } else if step.ResolveGraph? {
        assert JobIdsOk(db) by {
          InvIds(db, now);
        }
        AdvancePositions(db, now);
      }
    } else {
      NothingWaits();
    }
  }

  lemma NothingWaits()
    ensures Positioned(EMPTY)
  {
  }

  lemma InvIds(db: Db, now: int)
    requires Inv(db, now)
    ensures JobIdsOk(db)
  {
  }

  // -------------------------------------------------------------------------
  // No job is given up with budget left
  // -------------------------------------------------------------------------

  /** A failed job has spent its attempts, or the attempt that failed it had a cancel on it. */
  ghost predicate GivenUp(db: Db, j: JobId) {
    j in db.jobs && db.jobs[j].state == JobState.Failed ==>
      || |Spent(db, j)| >= db.jobs[j].maxAttempts
      || exists a :: a in db.attempts && db.attempts[a].job == j && db.attempts[a].state == AttemptState.Failed && db.attempts[a].cancelRequested
  }

  /** `j` has not newly failed, and ended attempts are still there. */
  ghost predicate NotNewlyFailed(db: Db, d: Db, j: JobId) {
    && (j in d.jobs && d.jobs[j].state == JobState.Failed ==>
          j in db.jobs && db.jobs[j].state == JobState.Failed && d.jobs[j].maxAttempts == db.jobs[j].maxAttempts)
    && (forall a | a in db.attempts && db.attempts[a].state.IsTerminal() :: a in d.attempts && d.attempts[a] == db.attempts[a])
  }

  lemma GivenUpKept(db: Db, d: Db, j: JobId)
    requires GivenUp(db, j) && NotNewlyFailed(db, d, j)
    ensures GivenUp(d, j)
  {
    if j in d.jobs && d.jobs[j].state == JobState.Failed {
      SubsetCount(Spent(db, j), Spent(d, j));
      if |Spent(db, j)| < db.jobs[j].maxAttempts {
        var a :| a in db.attempts && db.attempts[a].job == j && db.attempts[a].state == AttemptState.Failed && db.attempts[a].cancelRequested;
        assert a in d.attempts && d.attempts[a] == db.attempts[a];
      }
    }
  }

  /** Job states a mutation writes are never Failed. */
  lemma MutationFails(db: Db, op: Op, now: int, j: JobId)
    requires Inv(db, now) && Apply(db, op, now).Accepted?
    ensures var d := Apply(db, op, now).db;
            j in d.jobs && d.jobs[j].state == JobState.Failed ==> j in db.jobs && db.jobs[j].state == JobState.Failed
  {
    hide Core, Settled, ReservationOk, Advance, SubmitJob, CancelJob, ResolveRecovery, YieldJob, SetLimit;
    match op
    case Submit(params) => SubmitFails(db, params, now, j);
    case Cancel(i, force) => CancelFails(db, i, force, now, j);
    case Yield(i, hold) => assert YieldJob(db, i, hold, now).db.jobs == db.jobs by { YieldRows(db, i, hold, now); }
    case SetMaxParallelRuns(i, limit) => LimitFails(db, i, limit, j);
    case Retry(i) => AdvanceFails(WithJob(db, i, db.jobs[i].(state := Queued, retryNotBefore := None, readySeq := None)), now, j);
    case RecoverResolve(i, number, how, alive) => ResolveFails(db, i, number, how, alive, now, j);
    case _ =>
  }

  lemma AdvanceFails(db: Db, now: int, j: JobId)
    ensures var d := Advance(db, now);
            j in d.jobs && d.jobs[j].state == JobState.Failed ==> j in db.jobs && db.jobs[j].state == JobState.Failed
  {
    hide Advance;
    AdvanceFrame(db, now);
    if j in db.jobs {
      AdvanceRow(db, now, j);
    }
  }

  lemma YieldRows(db: Db, j: JobId, hold: bool, now: int)
    requires YieldJob(db, j, hold, now).Accepted?
    ensures YieldJob(db, j, hold, now).db.jobs == db.jobs
  {
    hide SomeoneAhead;
  }

  lemma SubmitFails(db: Db, params: SubmitParams, now: int, j: JobId)
    requires Inv(db, now) && SubmitJob(db, params, now).Accepted?
    ensures var d := SubmitJob(db, params, now).db;
            j in d.jobs && d.jobs[j].state == JobState.Failed ==> j in db.jobs && db.jobs[j].state == JobState.Failed
  {
    hide Settled, ReservationOk, AttemptSide, Advance, InsertJob;
    InsertFrame(db, params);
    AdvanceFails(InsertJob(db, params), now, j);
  }

  lemma CancelFails(db: Db, i: JobId, force: bool, now: int, j: JobId)
    requires CancelJob(db, i, force, now).Accepted?
    ensures var d := CancelJob(db, i, force, now).db;
            j in d.jobs && d.jobs[j].state == JobState.Failed ==> j in db.jobs && db.jobs[j].state == JobState.Failed
  {
    hide Advance;
    var job := db.jobs[i];
    if job.state.IsWaiting() {
      AdvanceFails(WithJob(DropReservation(db, i), i, job.(state := JobState.Cancelled)), now, j);
    } else {
      var a := LiveAttempt(db, i).value;
      var flagged := WithAttempt(db, a, db.attempts[a].(cancelRequested := true));
      if db.attempts[a].state.Prepared? {
        AdvanceFails(Close(flagged, a, AttemptState.Cancelled, job.(state := JobState.Cancelled)), now, j);
      }
    }
  }

  lemma LimitFails(db: Db, i: JobId, limit: nat, j: JobId)
    requires SetLimit(db, i, limit).Accepted?
    ensures var d := SetLimit(db, i, limit).db;
            j in d.jobs && d.jobs[j].state == JobState.Failed ==> j in db.jobs && db.jobs[j].state == JobState.Failed
  {
  }

  lemma ResolveFails(db: Db, i: JobId, number: nat, how: ResolveAs, alive: bool, now: int, j: JobId)
    requires ResolveRecovery(db, i, number, how, alive, now).Accepted?
    ensures var d := ResolveRecovery(db, i, number, how, alive, now).db;
            j in d.jobs && d.jobs[j].state == JobState.Failed ==> j in db.jobs && db.jobs[j].state == JobState.Failed
  {
    hide Advance;
    var a := ByNumber(db, i, number, db.lastAttempt).value;
    AdvanceFails(Close(db, a, AttemptState.Lost, db.jobs[i].(state := JobState.Lost)), now, j);
    AdvanceFails(Close(db, a, AttemptState.Cancelled, db.jobs[i].(state := JobState.Cancelled)), now, j);
  }

  lemma OtherFails(db: Db, step: Step, now: int, j: JobId)
    requires Inv(db, now) && Enabled(db, step) && !step.SchedulePass? && !step.Finish?
    ensures var d := Next(db, step, now);
            j in d.jobs && d.jobs[j].state == JobState.Failed ==> j in db.jobs && db.jobs[j].state == JobState.Failed
  {
    hide Core, Settled, ReservationOk, Advance, Apply, Pass, Finalize;
    match step
    case Mutate(op) =>
      if Apply(db, op, now).Accepted? {
        MutationFails(db, op, now, j);
      }
    case ResolveGraph => AdvanceFails(db, now, j);
    case _ =>
  }

  lemma FinishFails(db: Db, a: AttemptId, state: AttemptState, now: int, j: JobId)
    requires Inv(db, now) && Enabled(db, Finish(a, state)) && (state != AttemptState.Failed || db.attempts[a].job != j)
    ensures var d := Finalize(db, a, state, now);
            j in d.jobs && d.jobs[j].state == JobState.Failed ==> j in db.jobs && db.jobs[j].state == JobState.Failed
  {
    hide Core, Settled, ReservationOk, Advance, Used;
    LiveFact(db, a, now);
    var after := JobAfter(db.jobs[db.attempts[a].job], db.attempts[a], state, Used(db, a, state), now);
    AdvanceFails(Close(db, a, state, after), now, j);
  }

  lemma QuietEnded(db: Db, d: Db, j: JobId)
    requires Quiet(db, d)
    ensures forall a | a in db.attempts && db.attempts[a].state.IsTerminal() :: a in d.attempts && d.attempts[a] == db.attempts[a]
    ensures j in db.jobs ==> j in d.jobs && d.jobs[j].maxAttempts == db.jobs[j].maxAttempts
  {
  }

  lemma PassFails(db: Db, now: int, j: JobId)
    requires Inv(db, now)
    ensures NotNewlyFailed(db, Pass(db, now), j)
  {
    hide Settled, ReservationOk, JobSide, ScanPass, ActiveLeases, EligibleCandidates, BypassesCommit, ReservationsCommit, StartAll,
         NextReservation, AttemptsOk, OneLive, ActiveOk, CountsOk;
    if !db.paused {
      PlanFacts(db, now);
      var starts := PassPlan(db, now).starts;
      StartAllFrame(db, starts);
      StartAllOld(db, starts);
      StartAllKeepsMax(db, starts);
    }
  }

  lemma StepGivenUp(db: Db, step: Step, now: int, j: JobId)
    requires Inv(db, now) && Enabled(db, step) && GivenUp(db, j)
    ensures GivenUp(Next(db, step, now), j)
  {
    hide Core, Settled, ReservationOk, Advance, Apply, Pass, Finalize, GivenUp, Quiet, Spent;
    var d := Next(db, step, now);
    if step.SchedulePass? {
      PassFails(db, now, j);
      GivenUpKept(db, d, j);
    } else if step.Finish? && step.state == AttemptState.Failed && db.attempts[step.attempt].job == j {
      FailedGivenUp(db, step.attempt, now);
    } else {
      StepQuiet(db, step, now);
      QuietEnded(db, d, j);
      if step.Finish? {
        FinishFails(db, step.attempt, step.state, now, j);
      } else {
        OtherFails(db, step, now, j);
      }
      GivenUpKept(db, d, j);
    }
  }

  lemma FailedGivenUp(db: Db, a: AttemptId, now: int)
    requires Inv(db, now) && Enabled(db, Finish(a, AttemptState.Failed))
    ensures GivenUp(Finalize(db, a, AttemptState.Failed, now), db.attempts[a].job)
  {
    hide Core, Settled, ReservationOk, Advance, Finalize, Spent;
    FinishLaw(db, a, AttemptState.Failed, now);
    var d := Finalize(db, a, AttemptState.Failed, now);
    if db.attempts[a].cancelRequested {
      assert d.attempts[a].job == db.attempts[a].job && d.attempts[a].state == AttemptState.Failed && d.attempts[a].cancelRequested;
    } else {
      FailureLaw(db, a, now);
    }
  }

  /** Over every run a failed job has at least as many attempts that ended otherwise than by yielding as
      it may have, unless the attempt that failed it had a cancel on it: a yield never costs a retry. */
  lemma {:induction false} RunGivenUp(states: seq<Db>, steps: seq<Timed>, i: nat, j: JobId)
    requires FromEmpty(states, steps) && i < |states|
    ensures j in states[i].jobs && states[i].jobs[j].state == JobState.Failed ==>
              || |Spent(states[i], j)| >= states[i].jobs[j].maxAttempts
              || exists a :: && a in states[i].attempts && states[i].attempts[a].job == j
                             && states[i].attempts[a].state == AttemptState.Failed && states[i].attempts[a].cancelRequested
    decreases i
  {
    hide Inv, Next, Spent;
    if i > 0 {
      RunGivenUp(states, steps, i - 1, j);
      RunKeepsInv(states, steps, i - 1, steps[i - 1].now);
      StepGivenUp(states[i - 1], steps[i - 1].step, steps[i - 1].now, j);
    }
  }
}
