/**
 What the reservation is for, over whole runs: once its cutoff is pinned only
 finitely many jobs can still start ahead of the protected one, no job passes it
 twice, nothing of another priority passes it at all, and admission never makes
 the active set exceed a declared limit.
 */
module QueueFairness {
  import opened Domain
  import opened Scheduler
  import opened PassProperties
  import opened Tables
  import opened Dependencies
  import opened Transactions
  import opened QueueInvariant
  import opened QueueSteps
  import opened QueueMotion
  import opened QueueRuns

  // -------------------------------------------------------------------------
  // Bounded bypass
  // -------------------------------------------------------------------------

  predicate Pinned(db: Db) {
    db.reservation.Some? && db.reservation.value.cutoff != UNFROZEN
  }

  /** Jobs that can still pass the protected job: waiting, inside the frontier,
      bypass unspent. */
  function Waiters(db: Db): set<JobId>
    requires db.reservation.Some?
  {
    var r := db.reservation.value;
    set j | j in db.jobs && db.jobs[j].state.IsWaiting() && db.jobs[j].readySeq.Some? && db.jobs[j].readySeq.value <= r.cutoff
            && j !in r.consumed && j != r.job
  }

  lemma QuietWaiters(db: Db, d: Db)
    requires Pinned(db) && db.reservation.value.cutoff <= db.readySeq && d.reservation == db.reservation && ReadyMoves(db, d)
    ensures Waiters(d) <= Waiters(db)
  {
    forall j | j in Waiters(d) ensures j in Waiters(db) {
      assert SeqMoved(db, d, j);
    }
  }

  /** Starts past a surviving reservation: distinct waiters of its own priority. */
  lemma PassStartsAreWaiters(db: Db, now: int)
    requires Inv(db, now) && !db.paused && SameReservation(db, Pass(db, now))
    ensures forall s | s in PassPlan(db, now).starts ::
              && s.bypasses == Some(db.reservation.value.job) && s.job in db.jobs && s.job !in db.reservation.value.consumed
              && IsEligible(db, s.job, now) && s.job != db.reservation.value.job
              && db.jobs[s.job].priority == db.jobs[db.reservation.value.job].priority
              && (Pinned(db) ==> s.job in Waiters(db))
  {
    hide AttemptSide, Settled, ScanPass, ActiveLeases, EligibleCandidates, ReservationsCommit;
    PassKeeps(db, now);
    PlanFacts(db, now);
    EligibleFacts(db, now);
    var eligible, plan, r := EligibleCandidates(db, now), PassPlan(db, now), db.reservation.value;
    assert Lookup(eligible, r.job) == CandidateOf(db, r.job);
    forall s | s in plan.starts
      ensures s.bypasses == Some(r.job) && s.job !in r.consumed && IsEligible(db, s.job, now) && s.job != r.job
      ensures s.job in db.jobs && db.jobs[s.job].priority == db.jobs[r.job].priority
      ensures Pinned(db) ==> s.job in Waiters(db)
    {
      assert Bypass(s, eligible, Gate(r.job, CandidateOf(db, r.job).priority, Snapshot(db).value.cutoff), r.consumed);
      assert Lookup(eligible, s.job) == CandidateOf(db, s.job);
    }
  }

  lemma {:induction false} DistinctCount(starts: seq<Start>)
    requires Distinct(starts)
    ensures |StartedJobs(starts)| == |starts|
  {
    if starts != [] {
      var rest := starts[1..];
      forall i, j | 0 <= i < j < |rest| ensures rest[i].job != rest[j].job {
        assert rest[i] == starts[i + 1] && rest[j] == starts[j + 1];
      }
      DistinctCount(rest);
      assert starts == [starts[0]] + rest;
      ConsStart(starts[0], rest, 0);
      assert starts[0].job !in StartedJobs(rest);
    }
  }

  lemma PassWaiters(db: Db, now: int)
    requires Inv(db, now) && Pinned(db) && !db.paused && SameReservation(db, Pass(db, now))
    ensures Waiters(Pass(db, now)) <= Waiters(db)
    ensures |Waiters(Pass(db, now))| + |PassPlan(db, now).starts| <= |Waiters(db)|
  {
    hide AttemptSide, JobSide, Settled, ScanPass, ActiveLeases, EligibleCandidates, BypassesCommit, ReservationsCommit, ReservationOk;
    PassStartsAreWaiters(db, now);
    PassKeeps(db, now);
    PassReservationEvolves(db, now);
    PlanFacts(db, now);
    var starts, d := PassPlan(db, now).starts, Pass(db, now);
    StartAllFrame(db, starts);
    DistinctCount(starts);
    assert d.jobs == StartAll(db, starts).jobs;
    forall j | j in Waiters(d) ensures j in Waiters(db) && j !in StartedJobs(starts) {
      assert j !in StartedJobs(starts);
      assert d.jobs[j] == db.jobs[j];
    }
    assert StartedJobs(starts) <= Waiters(db);
    assert Waiters(d) + StartedJobs(starts) <= Waiters(db) && Waiters(d) !! StartedJobs(starts);
    CountSplit(Waiters(d), StartedJobs(starts), Waiters(db));
  }

  lemma CountSplit(a: set<JobId>, b: set<JobId>, all: set<JobId>)
    requires a !! b && a + b <= all
    ensures |a| + |b| <= |all|
  {
    assert |a + b| == |a| + |b|;
    assert all == (a + b) + (all - (a + b));
  }

  lemma StepWaiters(db: Db, step: Step, now: int)
    requires Inv(db, now) && Enabled(db, step) && Pinned(db) && SameReservation(db, Next(db, step, now))
    ensures Waiters(Next(db, step, now)) <= Waiters(db)
    ensures |Waiters(Next(db, step, now))| + |StartsOf(db, step, now)| <= |Waiters(db)|
  {
    hide Core, Settled, EdgesLatch, SkipsStay, ReadyMoves, AttemptsSettle, Waiters, Apply, Pass, Advance, Finalize;
    if step.SchedulePass? {
      if !db.paused {
        PassWaiters(db, now);
      } else {
        PausedPass(db, now);
      }
    } else {
      StepQuiet(db, step, now);
      var d := Next(db, step, now);
      QuietReservation(db, d);
      QuietWaiters(db, d);
      CountSplit(Waiters(d), {}, Waiters(db));
    }
  }

  lemma PausedPass(db: Db, now: int)
    requires db.paused
    ensures Pass(db, now) == db
  {
  }

  /** Starts committed by steps i to j - 1. */
  ghost function StartCount(states: seq<Db>, steps: seq<Timed>, i: nat, j: nat): nat
    requires IsRun(states, steps) && i <= j < |states|
  {
    if i == j then 0
    else StartCount(states, steps, i, j - 1) + |StartsOf(states[j - 1], steps[j - 1].step, steps[j - 1].now)|
  }

  /** Once the cutoff is pinned the jobs that can still pass never grow in number or
      kind, and every start ahead of the protected job uses one up: whatever is
      submitted, retried, yielded, held, released or reprioritised later, at most
      |Waiters| jobs start before the reservation ends. */
  lemma {:induction false} RunBoundedBypass(states: seq<Db>, steps: seq<Timed>, i: nat, j: nat)
    requires FromEmpty(states, steps) && i <= j < |states| && Pinned(states[i]) && SameReservation(states[i], states[j])
    ensures Pinned(states[j]) && Waiters(states[j]) <= Waiters(states[i])
    ensures StartCount(states, steps, i, j) + |Waiters(states[j])| <= |Waiters(states[i])|
    decreases j
  {
    hide Inv, Next, Waiters, StartsOf, Stage;
    RunReservationEvolves(states, steps, i, j);
    if i < j {
      assert SameReservation(states[i], states[j - 1]);
      RunBoundedBypass(states, steps, i, j - 1);
      RunKeepsInv(states, steps, j - 1, steps[j - 1].now);
      StepWaiters(states[j - 1], steps[j - 1].step, steps[j - 1].now);
    }
  }

  // -------------------------------------------------------------------------
  // At most one bypass per job
  // -------------------------------------------------------------------------

  /** Jobs that bypass the reservation active after the step. */
  function BypassesAt(db: Db, step: Step, now: int, protected: JobId): set<JobId> {
    BypassJobs(StartsOf(db, step, now), protected)
  }

  /** A bypass was unspent before the step, in the set the reservation starts from or carries, and is spent after it. */
  lemma StepBypass(db: Db, step: Step, now: int)
    requires Inv(db, now) && Enabled(db, step) && Next(db, step, now).reservation.Some?
    ensures var d := Next(db, step, now);
            var bypasses := BypassesAt(db, step, now, d.reservation.value.job);
            && bypasses <= d.reservation.value.consumed
            && (SameReservation(db, d) ==> bypasses !! db.reservation.value.consumed)
            && (!SameReservation(db, d) ==> bypasses !! ActiveJobs(db) && ActiveJobs(d) <= d.reservation.value.consumed)
  {
    hide JobSide, Settled, EdgesLatch, SkipsStay, ReadyMoves, AttemptsSettle, Apply, Advance, Finalize, ScanPass, ActiveLeases, EligibleCandidates;
    if step.SchedulePass? {
      if !db.paused {
        PassBypass(db, now);
      }
    } else {
      StepQuiet(db, step, now);
    }
  }

  lemma PassBypass(db: Db, now: int)
    requires Inv(db, now) && !db.paused && Pass(db, now).reservation.Some?
    ensures var d := Pass(db, now);
            var bypasses := BypassJobs(PassPlan(db, now).starts, d.reservation.value.job);
            && bypasses <= d.reservation.value.consumed
            && (SameReservation(db, d) ==> bypasses !! db.reservation.value.consumed)
            && (!SameReservation(db, d) ==> bypasses !! ActiveJobs(db) && ActiveJobs(d) <= d.reservation.value.consumed)
  {
    hide JobSide, Settled, ScanPass, ActiveLeases, EligibleCandidates, ReservationOk, AttemptSide;
    PlanFacts(db, now);
    var d, plan := Pass(db, now), PassPlan(db, now);
    if SameReservation(db, d) {
      PassStartsAreWaiters(db, now);
    } else {
      assert plan.create.Some?;
      var n := plan.create.value;
      assert LeaseIdsOk(db) by {
        LeaseIds(db);
      }
      ActiveJobsFacts(db);
      PassActiveJobs(db, now);
      assert PlainJobs(plan.starts, n.job) + BypassJobs(plan.starts, n.job) == StartedJobs(plan.starts);
    }
  }

  lemma LeaseIds(db: Db)
    requires AttemptSide(db)
    ensures LeaseIdsOk(db)
  {
  }

  /** A pass adds exactly the started jobs to the lease holders. */
  lemma PassActiveJobs(db: Db, now: int)
    requires Core(db) && !db.paused
    ensures ActiveJobs(Pass(db, now)) <= ActiveJobs(db) + StartedJobs(PassPlan(db, now).starts)
  {
    hide JobSide, ScanPass, ActiveLeases, EligibleCandidates, BypassesCommit, ReservationsCommit;
    PlanFacts(db, now);
    var starts := PassPlan(db, now).starts;
    var d := StartAll(db, starts);
    StartAllOld(db, starts);
    assert Pass(db, now).leases == d.leases by {
      StartAllFrame(db, starts);
    }
    forall j | j in ActiveJobs(d) ensures j in ActiveJobs(db) + StartedJobs(starts) {
      var a :| a in ActiveSet(d) && d.leases[a].job == j;
      if a <= db.lastAttempt {
        assert a in ActiveSet(db);
      } else {
        var k := a - db.lastAttempt - 1;
        StartAllNew(db, starts, k);
        assert starts[k] in starts;
      }
    }
  }

  /** Over every run, restarts included, no job bypasses the same reservation twice. */
  lemma RunBypassOnce(states: seq<Db>, steps: seq<Timed>, i: nat, k: nat)
    requires FromEmpty(states, steps) && i < k < |steps| && SameReservation(states[i + 1], states[k + 1])
    ensures var job := states[k + 1].reservation.value.job;
            BypassesAt(states[i], steps[i].step, steps[i].now, job) !! BypassesAt(states[k], steps[k].step, steps[k].now, job)
  {
    hide Inv, Next, Stage, BypassesAt;
    RunReservationEvolves(states, steps, i + 1, k + 1);
    assert SameReservation(states[i + 1], states[k]);
    RunReservationEvolves(states, steps, i + 1, k);
    RunKeepsInv(states, steps, i, steps[i].now);
    RunKeepsInv(states, steps, k, steps[k].now);
    StepBypass(states[i], steps[i].step, steps[i].now);
    StepBypass(states[k], steps[k].step, steps[k].now);
  }

  /** A job that held a lease when the reservation was created never bypasses it. */
  lemma RunHoldersNeverBypass(states: seq<Db>, steps: seq<Timed>, i: nat, k: nat)
    requires FromEmpty(states, steps) && i <= k < |steps| && SameReservation(states[i + 1], states[k + 1])
    requires !SameReservation(states[i], states[i + 1])
    ensures var bypasses := BypassesAt(states[k], steps[k].step, steps[k].now, states[k + 1].reservation.value.job);
            if i == k then bypasses !! ActiveJobs(states[i]) else bypasses !! ActiveJobs(states[i + 1])
  {
    hide Inv, Next, Stage, BypassesAt, ActiveJobs;
    RunKeepsInv(states, steps, i, steps[i].now);
    StepBypass(states[i], steps[i].step, steps[i].now);
    if i < k {
      RunReservationEvolves(states, steps, i + 1, k + 1);
      assert SameReservation(states[i + 1], states[k]);
      RunReservationEvolves(states, steps, i + 1, k);
      RunKeepsInv(states, steps, k, steps[k].now);
      StepBypass(states[k], steps[k].step, steps[k].now);
    }
  }

  /** While a reservation stays active nothing starts but jobs of its own priority. */
  lemma RunEqualPriority(states: seq<Db>, steps: seq<Timed>, k: nat, s: Start)
    requires FromEmpty(states, steps) && k < |steps| && SameReservation(states[k], states[k + 1])
    requires s in StartsOf(states[k], steps[k].step, steps[k].now)
    ensures var db := states[k];
            && s.bypasses == Some(db.reservation.value.job) && s.job in db.jobs && db.reservation.value.job in db.jobs
            && db.jobs[s.job].priority == db.jobs[db.reservation.value.job].priority
  {
    hide Core, Settled, Pass;
    RunKeepsInv(states, steps, k, steps[k].now);
    PassStartsAreWaiters(states[k], steps[k].now);
  }
}
