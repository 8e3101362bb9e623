/**
 Theorems over whole runs of the queue: any interleaving of client mutations,
 reconciliation steps, dependency resolution and scheduling passes, with a clock
 that never goes back. A daemon restart changes no table, so runs span restarts.
 */
module QueueRuns {
  import opened Domain
  import opened Scheduler
  import opened PassProperties
  import opened Tables
  import opened Dependencies
  import opened Transactions
  import opened QueueInvariant
  import opened QueueSteps
  import opened QueueMotion

  datatype Timed = Timed(step: Step, now: int)

  /** `states[i + 1]` follows from `states[i]` by `steps[i]`. */
  ghost predicate IsRun(states: seq<Db>, steps: seq<Timed>) {
    && |states| == |steps| + 1
    && (forall i | 0 <= i < |steps| ::
          Enabled(states[i], steps[i].step) && states[i + 1] == Next(states[i], steps[i].step, steps[i].now))
    && (forall i, j | 0 <= i <= j < |steps| :: steps[i].now <= steps[j].now)
  }

  ghost predicate FromEmpty(states: seq<Db>, steps: seq<Timed>) {
    IsRun(states, steps) && states[0] == EMPTY
  }

  /** The consistency of jobs, attempts, leases, edges, readiness and reservation holds
      after every transaction of every run. */
  lemma {:induction false} RunKeepsInv(states: seq<Db>, steps: seq<Timed>, i: nat, now: int)
    requires FromEmpty(states, steps) && i < |states|
    requires i > 0 ==> steps[i - 1].now <= now
    ensures Inv(states[i], now)
    decreases i
  {
    hide Inv, Next;
    if i == 0 {
      EmptyOk(now);
    } else {
      RunKeepsInv(states, steps, i - 1, steps[i - 1].now);
      StepInv(states[i - 1], steps[i - 1].step, steps[i - 1].now, steps[i - 1].now);
      InvLater(states[i], steps[i - 1].now, now);
    }
  }

  // -------------------------------------------------------------------------
  // Leases, attempts and jobs
  // -------------------------------------------------------------------------

  /** In every reachable state an attempt is live exactly while its one lease is
      unreleased, a job has at most one live attempt, has one exactly when it is
      starting, running or needs attention, and the three limits then agree. */
  lemma RunLeasesConsistent(states: seq<Db>, steps: seq<Timed>, i: nat)
    requires FromEmpty(states, steps) && i < |states|
    ensures var db := states[i];
            && db.leases.Keys == db.attempts.Keys
            && (forall a | a in db.attempts :: HoldsLease(db, a) <==> !db.attempts[a].state.IsTerminal())
            && (forall a, b, j | IsLiveOf(db, a, j) && IsLiveOf(db, b, j) :: a == b)
            && (forall j | j in db.jobs :: HasLive(db, j) <==> db.jobs[j].state.IsActive())
            && (forall a, j | j in db.jobs && IsLiveOf(db, a, j) :: db.jobs[j].limit == db.attempts[a].limit == db.leases[a].limit)
  {
    hide JobSide, Settled, ReservationOk, Next;
    RunKeepsInv(states, steps, i, if i == 0 then 0 else steps[i - 1].now);
    var db := states[i];
    assert forall a | a in db.attempts :: AttemptOk(db, a);
  }

  // -------------------------------------------------------------------------
  // Dependencies
  // -------------------------------------------------------------------------

  lemma StepLatches(db: Db, step: Step, now: int)
    requires Inv(db, now) && Enabled(db, step)
    ensures EdgesLatch(db, Next(db, step, now)) && SkipsStay(db, Next(db, step, now)) && ReadyMoves(db, Next(db, step, now))
  {
    hide Core, Settled, ReservationOk, EdgesLatch, SkipsStay, ReadyMoves, AttemptsSettle, ReservationStays, Apply, Pass, Advance, Finalize;
    if step.SchedulePass? {
      PassMoves(db, now);
    } else {
      StepQuiet(db, step, now);
    }
  }

  /** A resolved edge never changes and a skipped job is never revived, whatever
      happens to its parents later. */
  lemma {:induction false} RunLatches(states: seq<Db>, steps: seq<Timed>, i: nat, j: nat)
    requires FromEmpty(states, steps) && i <= j < |states|
    ensures EdgesLatch(states[i], states[j]) && SkipsStay(states[i], states[j])
    decreases j
  {
    hide Inv, Next;
    if i < j {
      RunLatches(states, steps, i, j - 1);
      RunKeepsInv(states, steps, j - 1, steps[j - 1].now);
      StepLatches(states[j - 1], steps[j - 1].step, steps[j - 1].now);
    }
  }

  /** At the end of every transaction no finished parent has an open edge and no
      waiting job a violated one. */
  lemma RunSettled(states: seq<Db>, steps: seq<Timed>, i: nat)
    requires FromEmpty(states, steps) && i < |states|
    ensures Settled(states[i])
  {
    hide Core, Settled, ReservationOk, Next;
    RunKeepsInv(states, steps, i, if i == 0 then 0 else steps[i - 1].now);
  }

  /** The starts a step commits. */
  function StartsOf(db: Db, step: Step, now: int): seq<Start> {
    if step.SchedulePass? && !db.paused then PassPlan(db, now).starts else []
  }

  /** An attempt is created only by a start of a pass, and only for a job that is queued, in the
      readiness order and past its retry delay, and each of whose parents had finished: with success,
      where the edge asks for that. */
  lemma RunStartsReadyJobs(states: seq<Db>, steps: seq<Timed>, i: nat, a: AttemptId)
    requires FromEmpty(states, steps) && i < |steps|
    requires a in states[i + 1].attempts && a !in states[i].attempts
    ensures var db := states[i];
            var j := states[i + 1].attempts[a].job;
            && (exists s | s in StartsOf(db, steps[i].step, steps[i].now) :: s.job == j)
            && j in db.jobs && db.jobs[j].state == Queued && db.jobs[j].readySeq.Some?
            && (db.jobs[j].retryNotBefore.None? || db.jobs[j].retryNotBefore.value <= steps[i].now)
            && forall k | k in db.edges && k.1 == j ::
                 && db.edges[k].latch.Some? && db.edges[k].latch.value.outcome.IsTerminal()
                 && (db.edges[k].condition == OnSuccess ==> db.edges[k].latch.value.outcome == JobState.Succeeded)
  {
    hide Settled, ReservationOk, Apply, Advance, Finalize, AttemptSide, EdgesOk, ReadyOk, RowsOk, ScanPass, ActiveLeases,
         EligibleCandidates, BypassesCommit, ReservationsCommit, NextReservation;
    var db, step, now := states[i], steps[i].step, steps[i].now;
    RunKeepsInv(states, steps, i, now);
    if !step.SchedulePass? {
      StepQuiet(db, step, now);
    } else if !db.paused {
      PlanFacts(db, now);
      NewAttemptIsStart(db, now, a);
      var s :| s in PassPlan(db, now).starts && s.job == states[i + 1].attempts[a].job;
      assert Committed(db.jobs[s.job]);
    }
  }

  lemma NewAttemptIsStart(db: Db, now: int, a: AttemptId)
    requires Core(db) && !db.paused && a in Pass(db, now).attempts && a !in db.attempts
    ensures exists s | s in PassPlan(db, now).starts :: s.job == Pass(db, now).attempts[a].job
  {
    hide JobSide;
    PlanFacts(db, now);
    var starts := PassPlan(db, now).starts;
    var d := StartAll(db, starts);
    StartAllOld(db, starts);
    StartAllFrame(db, starts);
    PassCore(db, now);
    assert AttemptOk(Pass(db, now), a);
    assert db.lastAttempt < a <= db.lastAttempt + |starts|;
    var k := a - db.lastAttempt - 1;
    StartAllNew(db, starts, k);
    assert starts[k] in starts;
  }

  /** Retrying a job neither revives a skipped child nor takes a ready one out of the order. */
  lemma RunRetryKeepsChildren(states: seq<Db>, steps: seq<Timed>, i: nat, p: JobId, j: JobId)
    requires FromEmpty(states, steps) && i < |steps| && steps[i].step == Mutate(Retry(p)) && j in states[i].jobs && j != p
    ensures j in states[i + 1].jobs
    ensures states[i].jobs[j].state.IsWaiting() && states[i].jobs[j].readySeq.Some? ==> states[i + 1].jobs[j] == states[i].jobs[j]
    ensures states[i].jobs[j].state.Skipped? ==> states[i + 1].jobs[j].state.Skipped?
  {
    hide Settled, ReservationOk, Advance, AttemptSide;
    var db, now := states[i], steps[i].now;
    RunKeepsInv(states, steps, i, now);
    if RetryJob(db, p, now).Accepted? {
      var row := db.jobs[p].(state := Queued, retryNotBefore := None, readySeq := None);
      var mid := WithJob(db, p, row);
      assert RowStep(db.jobs[p], row) by {
        RowFact(db, p);
      }
      WithJobSide(db, mid, p);
      AdvanceVerdicts(mid, now, j);
      if db.jobs[j].state.IsWaiting() && db.jobs[j].readySeq.Some? {
        AdvanceKeepsReady(mid, now, j);
      }
      if db.jobs[j].state.Skipped? {
        NotWaitingNotSkipped(mid, j);
      }
    }
  }

  /** Resolution gives a job without a position one behind every position handed out before, or none. */
  lemma AdvanceGoesBack(db: Db, now: int, j: JobId)
    requires j in db.jobs && db.jobs[j].readySeq.None?
    ensures j in Advance(db, now).jobs
    ensures var position := Advance(db, now).jobs[j].readySeq; position.None? || position.value > db.readySeq
  {
    var s := Settle(db, now);
    AssignReadyFrame(s, ReadySet(s, now), s.lastJob);
  }

  /** The job a step sends back to waiting: its attempt ended without finishing it, or it was retried. */
  function Requeued(db: Db, step: Step): Option<JobId> {
    match step
    case Finish(a, _) => if a in db.attempts then Some(db.attempts[a].job) else None
    case Mutate(Retry(j)) => Some(j)
    case _ => None
  }

  /** A job that waits again after a failure, a yield, a lost yield or a manual retry goes to the back of the line: behind every
      readiness position handed out so far, so behind every pinned frontier. */
  lemma RunRequeuedGoesBack(states: seq<Db>, steps: seq<Timed>, i: nat, j: JobId)
    requires FromEmpty(states, steps) && i < |steps| && Requeued(states[i], steps[i].step) == Some(j)
    requires j in states[i].jobs && j in states[i + 1].jobs
    requires !states[i].jobs[j].state.IsWaiting() && states[i + 1].jobs[j].state.IsWaiting()
    ensures var position := states[i + 1].jobs[j].readySeq; position.None? || position.value > states[i].readySeq
  {
    hide Settled, ReservationOk, Advance, Core, Used;
    var db, step, now := states[i], steps[i].step, steps[i].now;
    RunKeepsInv(states, steps, i, now);
    match step
    case Finish(a, state) => FinishGoesBack(db, a, state, now);
    case Mutate(op) =>
      if RetryJob(db, j, now).Accepted? {
        var row := db.jobs[j].(state := Queued, retryNotBefore := None, readySeq := None);
        AdvanceGoesBack(WithJob(db, j, row), now, j);
      }
  }

  lemma FinishGoesBack(db: Db, a: AttemptId, state: AttemptState, now: int)
    requires Inv(db, now) && Enabled(db, Finish(a, state))
    ensures var j := db.attempts[a].job;
            var d := Finalize(db, a, state, now);
            j in d.jobs && (d.jobs[j].state.IsWaiting() ==> d.jobs[j].readySeq.None? || d.jobs[j].readySeq.value > db.readySeq)
  {
    hide Settled, ReservationOk, Advance, Core, Used;
    LiveFact(db, a, now);
    var j := db.attempts[a].job;
    var after := JobAfter(db.jobs[j], db.attempts[a], state, Used(db, a, state), now);
    var mid := Close(db, a, state, after);
    if after.state.IsWaiting() {
      AdvanceGoesBack(mid, now, j);
    } else {
      AdvanceVerdicts(mid, now, j);
      NotWaitingNotSkipped(mid, j);
    }
  }

  lemma NotWaitingNotSkipped(db: Db, j: JobId)
    requires j in db.jobs && !db.jobs[j].state.IsWaiting()
    ensures !WillSkip(db, j)
  {
  }

  // -------------------------------------------------------------------------
  // The reservation
  // -------------------------------------------------------------------------

  /** Open window, then closing, then pinned. */
  function Stage(db: Db, r: Reservation): nat {
    match BackfillFrontier(db, r)
    case OpenWindow => 0
    case FreezePending(_) => 1
    case Frozen(_) => 2
  }

  /** The same reservation is active in both states. */
  ghost predicate SameReservation(db: Db, d: Db) {
    db.reservation.Some? && d.reservation.Some? && db.reservation.value.id == d.reservation.value.id
  }

  /** How one reservation evolves: identity fixed, bypasses only spent, frontier
      only forward, a pinned cutoff for good and never the sentinel. */
  ghost predicate ReservationEvolves(db: Db, d: Db)
    requires SameReservation(db, d)
  {
    var r, s := db.reservation.value, d.reservation.value;
    && s.job == r.job && s.blockers == r.blockers && r.consumed <= s.consumed
    && Stage(db, r) <= Stage(d, s)
    && (r.cutoff != UNFROZEN ==> s.cutoff == r.cutoff)
  }

  lemma QuietReservation(db: Db, d: Db)
    requires AttemptsSettle(db, d) && ReservationStays(db, d) && SameReservation(db, d)
    ensures ReservationEvolves(db, d) && d.reservation == db.reservation
  {
    var r := db.reservation.value;
    if AnyBlockersAdvancing(d, r.blockers) {
      var a :| a in r.blockers && BlockerAdvancing(d, a);
      assert BlockerAdvancing(db, a);
    }
  }

  /** A pass that keeps the reservation creates none and resolves none. */
  lemma PassKeeps(db: Db, now: int)
    requires Inv(db, now) && !db.paused && SameReservation(db, Pass(db, now))
    ensures var plan := PassPlan(db, now);
            && plan.create.None? && !plan.satisfy && plan.invalidate.None?
            && Surviving(plan, Snapshot(db)) == Some(db.reservation.value.job)
            && Pass(db, now).reservation.value.consumed ==
               db.reservation.value.consumed + BypassJobs(plan.starts, db.reservation.value.job)
  {
    hide Core, Settled, ScanPass, ActiveLeases, EligibleCandidates;
    PlanFacts(db, now);
  }

  lemma PassReservationEvolves(db: Db, now: int)
    requires Inv(db, now) && SameReservation(db, Pass(db, now))
    ensures ReservationEvolves(db, Pass(db, now))
    // The cutoff is pinned by the pass that finds the window closed, at the newest position, never at the sentinel.
    ensures var r, s := db.reservation.value, Pass(db, now).reservation.value;
            && (r.cutoff == UNFROZEN && s.cutoff != UNFROZEN ==> Stage(db, r) == 1)
            && (!db.paused && Stage(db, r) == 1 ==> s.cutoff == db.readySeq && s.cutoff != UNFROZEN)
  {
    hide Settled, ScanPass, ActiveLeases, EligibleCandidates, AttemptSide, AnyBlockersAdvancing;
    if !db.paused {
      PassKeeps(db, now);
      PlanFacts(db, now);
      PassBlockers(db, now);
      StartAllFrame(db, PassPlan(db, now).starts);
      assert db.readySeq != UNFROZEN;
    }
  }

  /** A pass does not set a blocker advancing again. */
  lemma PassBlockers(db: Db, now: int)
    requires Core(db) && ReservationOk(db, now) && !db.paused && db.reservation.Some?
    ensures var blockers := db.reservation.value.blockers;
            AnyBlockersAdvancing(Pass(db, now), blockers) ==> AnyBlockersAdvancing(db, blockers)
  {
    hide Core, ScanPass, ActiveLeases, EligibleCandidates, BypassesCommit, ReservationsCommit, NextReservation;
    PlanFacts(db, now);
    StartAllOld(db, PassPlan(db, now).starts);
    var d, r := Pass(db, now), db.reservation.value;
    if AnyBlockersAdvancing(d, r.blockers) {
      var a :| a in r.blockers && BlockerAdvancing(d, a);
      assert BlockerAdvancing(db, a);
    }
  }

  lemma StepReservationEvolves(db: Db, step: Step, now: int)
    requires Inv(db, now) && Enabled(db, step) && SameReservation(db, Next(db, step, now))
    ensures ReservationEvolves(db, Next(db, step, now))
  {
    hide Core, Settled, ReservationOk, ReservationEvolves, SameReservation, EdgesLatch, SkipsStay, ReadyMoves, AttemptsSettle,
         ReservationStays, Apply, Pass, Advance, Finalize;
    if step.SchedulePass? {
      PassReservationEvolves(db, now);
    } else {
      StepQuiet(db, step, now);
      QuietReservation(db, Next(db, step, now));
    }
  }

  /** Identifiers are never reused, so an id that left does not return. */
  lemma StepReservationIds(db: Db, step: Step, now: int)
    requires Inv(db, now) && Enabled(db, step)
    ensures var d := Next(db, step, now);
            && db.lastReservation <= d.lastReservation
            && (d.reservation.Some? ==> d.reservation.value.id > db.lastReservation || SameReservation(db, d))
  {
    hide Core, Settled, EdgesLatch, SkipsStay, ReadyMoves, AttemptsSettle, Apply, Advance, Finalize;
    if step.SchedulePass? {
      if !db.paused {
        PlanFacts(db, now);
      }
    } else {
      StepQuiet(db, step, now);
    }
  }

  lemma {:induction false} IdsOnlyGrow(states: seq<Db>, steps: seq<Timed>, i: nat, j: nat)
    requires FromEmpty(states, steps) && i <= j < |states|
    ensures states[i].lastReservation <= states[j].lastReservation
    ensures states[j].reservation.Some? && states[j].reservation.value.id <= states[i].lastReservation ==> SameReservation(states[i], states[j])
    decreases j
  {
    hide Inv, Next;
    if i < j {
      IdsOnlyGrow(states, steps, i, j - 1);
      RunKeepsInv(states, steps, j - 1, steps[j - 1].now);
      StepReservationIds(states[j - 1], steps[j - 1].step, steps[j - 1].now);
    } else {
      RunReservationOk(states, steps, i, if i == 0 then 0 else steps[i - 1].now);
    }
  }

  /** In every reachable state the protected job is queued, ready and past its
      retry delay, so a pass never finds it ineligible. */
  lemma RunReservationOk(states: seq<Db>, steps: seq<Timed>, i: nat, now: int)
    requires FromEmpty(states, steps) && i < |states| && (i > 0 ==> steps[i - 1].now <= now)
    ensures ReservationOk(states[i], now)
    ensures PassPlan(states[i], now).invalidate != Some(NoLongerEligible)
  {
    hide Settled, Next, ScanPass, AttemptSide;
    RunKeepsInv(states, steps, i, now);
    NeverIneligible(states[i], now);
  }

  lemma NeverIneligible(db: Db, now: int)
    requires Core(db) && ReservationOk(db, now)
    ensures PassPlan(db, now).invalidate != Some(NoLongerEligible)
  {
    hide AttemptSide, FreshScan, BackfillScan, ActiveLeases, EligibleCandidates;
    EligibleFacts(db, now);
  }

  /** Between two states with the same reservation it was active throughout, and
      its frontier went open, closing, pinned without ever going back. */
  lemma {:induction false} RunReservationEvolves(states: seq<Db>, steps: seq<Timed>, i: nat, j: nat)
    requires FromEmpty(states, steps) && i <= j < |states| && SameReservation(states[i], states[j])
    ensures ReservationEvolves(states[i], states[j])
    ensures forall k | i <= k <= j :: SameReservation(states[i], states[k])
    decreases j
  {
    hide Inv, Next, Stage;
    if i < j {
      RunReservationOk(states, steps, i, if i == 0 then 0 else steps[i - 1].now);
      RunKeepsInv(states, steps, j - 1, steps[j - 1].now);
      StepReservationIds(states[j - 1], steps[j - 1].step, steps[j - 1].now);
      IdsOnlyGrow(states, steps, i, j - 1);
      RunReservationEvolves(states, steps, i, j - 1);
      StepReservationEvolves(states[j - 1], steps[j - 1].step, steps[j - 1].now);
    }
  }
}
