/**
 Admission over the tables, in numbers: a pass leaves nothing unstarted that
 would fit, starts jobs in order, and records whom a new reservation waits for.
 */
module QueueAdmission {
  import opened Domain
  import opened Scheduler
  import opened PassProperties
  import opened Tables
  import opened Dependencies
  import opened Transactions
  import opened QueueInvariant
  import opened QueueSteps
  import opened QueueMotion
  import opened QueueRuns
  import opened QueueBudgets

  /** Queued, in the readiness order, and past any retry delay. */
  predicate Competes(db: Db, j: JobId, now: int) {
    && j in db.jobs && db.jobs[j].state == Queued && db.jobs[j].readySeq.Some?
    && (db.jobs[j].retryNotBefore.None? || db.jobs[j].retryNotBefore.value <= now)
  }

  /** One more lease would exceed the given limit or that of some active lease. */
  ghost predicate Crowded(db: Db, limit: nat) {
    |ActiveSet(db)| + 1 > limit || exists a :: a in ActiveSet(db) && |ActiveSet(db)| + 1 > db.leases[a].limit
  }

  // -------------------------------------------------------------------------
  // Nothing that fits is left
  // -------------------------------------------------------------------------

  lemma {:induction false} ShadowFrom(limits: seq<nat>, starts: seq<Start>, eligible: seq<Candidate>, l: nat)
    requires AllListed(starts, eligible) && l in Shadow(limits, starts, eligible)
    ensures l in limits || exists s :: s in starts && Lookup(eligible, s.job).limit == l
    decreases |starts|
  {
    if starts != [] {
      assert starts[0] in starts;
      var first := Lookup(eligible, starts[0].job).limit;
      ShadowFrom(limits + [first], starts[1..], eligible, l);
      if exists s :: s in starts[1..] && Lookup(eligible, s.job).limit == l {
        var s :| s in starts[1..] && Lookup(eligible, s.job).limit == l;
        assert s in starts;
      }
    }
  }

  /** Every limit the planner counted belongs to a lease that is active after the pass. */
  lemma ShadowIsActive(db: Db, now: int, l: nat)
    requires Core(db) && !db.paused
    requires AllListed(PassPlan(db, now).starts, EligibleCandidates(db, now))
    requires l in Shadow(Limits(ActiveLeases(db)), PassPlan(db, now).starts, EligibleCandidates(db, now))
    ensures var d := Pass(db, now); exists a :: a in ActiveSet(d) && d.leases[a].limit == l
  {
    hide AttemptsOk, OneLive, ActiveOk, CountsOk, ScanPass, ActiveLeases, EligibleCandidates, Shadow, Limits, StartAll, NextReservation,
         Snapshot, PendingFreeze, BypassesCommit, ReservationsCommit, AllListed;
    var eligible, starts := EligibleCandidates(db, now), PassPlan(db, now).starts;
    PlanFacts(db, now);
    var d := StartAll(db, starts);
    assert Pass(db, now).leases == d.leases;
    StartAllOld(db, starts);
    if l in Limits(ActiveLeases(db)) {
      ActiveLimitsFacts(db);
      var a :| a in ActiveSet(db) && db.leases[a].limit == l;
      assert a in ActiveSet(d);
      assert a in ActiveSet(Pass(db, now)) && Pass(db, now).leases[a].limit == l;
    } else {
      ShadowFrom(Limits(ActiveLeases(db)), starts, eligible, l);
      var s :| s in starts && Lookup(eligible, s.job).limit == l;
      StartedLimit(db, now, starts, s);
      var k :| 0 <= k < |starts| && starts[k] == s;
      StartAllNew(db, starts, k);
      assert db.lastAttempt + 1 + k in ActiveSet(Pass(db, now));
    }
  }

  lemma StartedLimit(db: Db, now: int, starts: seq<Start>, s: Start)
    requires Core(db) && s in starts && Startable(db, starts) && Listed(EligibleCandidates(db, now), s.job)
    ensures Lookup(EligibleCandidates(db, now), s.job).limit == db.jobs[s.job].limit
  {
    hide AttemptSide, EligibleCandidates;
    EligibleFacts(db, now);
  }

  /** A job the planner could not admit would exceed a limit in the tables it left. */
  lemma RefusedIsCrowded(db: Db, now: int, limit: nat)
    requires Core(db) && !db.paused
    requires AllListed(PassPlan(db, now).starts, EligibleCandidates(db, now))
    requires !CanAdmit(Shadow(Limits(ActiveLeases(db)), PassPlan(db, now).starts, EligibleCandidates(db, now)), limit)
    ensures Crowded(Pass(db, now), limit)
  {
    hide AttemptsOk, OneLive, ActiveOk, CountsOk, JobSide, ScanPass, ActiveLeases, EligibleCandidates, Shadow, Limits, StartAll,
         NextReservation, Snapshot, PendingFreeze, BypassesCommit, ReservationsCommit, AllListed, Distinct;
    var starts := PassPlan(db, now).starts;
    var shadow := Shadow(Limits(ActiveLeases(db)), starts, EligibleCandidates(db, now));
    PlannedLimits(db, now);
    StartAllCount(db, starts);
    ActiveRowFacts(db);
    assert Pass(db, now).leases == StartAll(db, starts).leases;
    assert |shadow| == |ActiveSet(Pass(db, now))|;
    if |shadow| + 1 <= limit {
      var l :| l in shadow && |shadow| + 1 > l;
      ShadowIsActive(db, now, l);
    }
  }

  /** Not started by the pass from `db` to `d`, and free to bypass the reservation active after it. */
  predicate MayStillPass(db: Db, d: Db, j: JobId)
    requires d.reservation.Some? && j in db.jobs && j in d.jobs && db.jobs[j].readySeq.Some?
  {
    var r := d.reservation.value;
    && !d.jobs[j].state.Starting? && j !in r.consumed
    && r.job in db.jobs && db.jobs[j].priority == db.jobs[r.job].priority
    && (r.cutoff == 0 || db.jobs[j].readySeq.value <= r.cutoff)
  }

  /** What the planner's maximality says of each candidate. */
  lemma PlanLeaves(db: Db, now: int, j: JobId)
    requires Inv(db, now) && !db.paused && Competes(db, j, now)
    ensures var d := Pass(db, now);
            && j in d.jobs
            && (d.reservation.None? ==> d.jobs[j].state.Starting?)
            && (d.reservation.Some? ==>
                  var r := d.reservation.value;
                  && r.job in db.jobs
                  && (j == r.job || MayStillPass(db, d, j) ==> Crowded(d, db.jobs[j].limit)))
  {
    hide Settled, AttemptSide, ScanPass, ActiveLeases, EligibleCandidates, Shadow, Limits, StartAll, BypassesCommit, Crowded, CanAdmit;
    var eligible, active, plan := EligibleCandidates(db, now), ActiveLeases(db), PassPlan(db, now);
    var d := Pass(db, now);
    PlanFacts(db, now);
    EligibleFacts(db, now);
    PassMaximal(active, eligible, Snapshot(db));
    StartAllFrame(db, plan.starts);
    var c := CandidateOf(db, j);
    assert c in eligible;
    if d.reservation.Some? {
      var r := d.reservation.value;
      assert Surviving(plan, Snapshot(db)) == Some(r.job);
      var p := Lookup(eligible, r.job);
      var gate := Gate(r.job, p.priority, ChargedCutoff(plan, Snapshot(db)));
      var shadow := Shadow(Limits(active), plan.starts, eligible);
      if j == r.job {
        RefusedIsCrowded(db, now, c.limit);
      } else if MayStillPass(db, d, j) {
        assert gate.Passes(c);
        assert !CanAdmit(shadow, c.limit);
        RefusedIsCrowded(db, now, c.limit);
      }
    }
  }

  /** Maximality in numbers: after a pass of any run either every competing job starts, or the protected
      job, and every other competing job that may still pass it, would push the number of active
      leases over its own limit or over that of an active lease. */
  lemma RunPassIsFull(states: seq<Db>, steps: seq<Timed>, i: nat, j: JobId)
    requires FromEmpty(states, steps) && i < |steps| && steps[i].step.SchedulePass? && !states[i].paused
    requires Competes(states[i], j, steps[i].now)
    ensures var d := states[i + 1];
            && j in d.jobs
            && (d.reservation.None? ==> d.jobs[j].state.Starting?)
            && (d.reservation.Some? && (j == d.reservation.value.job || MayStillPass(states[i], d, j)) ==>
                  || |ActiveSet(d)| + 1 > d.jobs[j].limit
                  || exists a :: a in ActiveSet(d) && |ActiveSet(d)| + 1 > d.leases[a].limit)
  {
    hide Inv, Next, StartAll;
    var db, now := states[i], steps[i].now;
    RunKeepsInv(states, steps, i, now);
    assert states[i + 1] == Pass(db, now) by {
      PassStep(db, now);
    }
    PlanLeaves(db, now, j);
    if states[i + 1].reservation.Some? && (j == states[i + 1].reservation.value.job || MayStillPass(db, states[i + 1], j)) {
      PassKeepsLimits(db, now, j);
    }
  }

  lemma PassStep(db: Db, now: int)
    ensures Next(db, SchedulePass, now) == Pass(db, now)
  {
  }

  lemma PassKeepsLimits(db: Db, now: int, j: JobId)
    requires Inv(db, now) && !db.paused && j in db.jobs
    ensures j in Pass(db, now).jobs && Pass(db, now).jobs[j].limit == db.jobs[j].limit
  {
    hide Settled, ReservationOk, Core, ScanPass, ActiveLeases, EligibleCandidates, BypassesCommit, ReservationsCommit, NextReservation;
    PlanFacts(db, now);
    StartAllKeepsLimits(db, PassPlan(db, now).starts, j);
  }

  lemma {:induction false} StartAllKeepsLimits(db: Db, starts: seq<Start>, j: JobId)
    requires Startable(db, starts) && j in db.jobs
    ensures j in StartAll(db, starts).jobs && StartAll(db, starts).jobs[j].limit == db.jobs[j].limit
    decreases |starts|
  {
    if starts != [] {
      assert starts[0] in starts;
      StartAllKeepsLimits(StartJob(db, starts[0].job), starts[1..], j);
    }
  }

  // -------------------------------------------------------------------------
  // Order
  // -------------------------------------------------------------------------

  /** The pass from the tables to the next respects order between `x`, which it starts, and `j`. */
  lemma PassRespects(db: Db, now: int, s: Start, j: JobId)
    requires Inv(db, now) && s in PassPlan(db, now).starts && Competes(db, j, now)
    ensures var started := StartedJobs(PassPlan(db, now).starts);
            && Competes(db, s.job, now)
            && (db.jobs[j].priority > db.jobs[s.job].priority ==> j in started)
            && (s.bypasses.None? && (db.reservation.None? || db.reservation.value.job != s.job)
                && db.jobs[j].priority == db.jobs[s.job].priority && db.jobs[j].readySeq.value < db.jobs[s.job].readySeq.value
                ==> j in started)
  {
    hide Inv, ScanPass, ActiveLeases, EligibleCandidates, BypassesCommit, ReservationsCommit;
    CandidatesCompete(db, now);
    assert Core(db) by {
      InvIsCore(db, now);
    }
    PlanFacts(db, now);
    PassOrder(ActiveLeases(db), EligibleCandidates(db, now), Snapshot(db), s, CandidateOf(db, s.job), CandidateOf(db, j));
  }

  /** Over every run a start leaves no competing job of higher priority behind; and a start that bypasses
      nobody, the protected job apart, leaves no competing job of its own priority behind that became
      ready earlier. */
  lemma RunOrder(states: seq<Db>, steps: seq<Timed>, i: nat, s: Start, j: JobId)
    requires FromEmpty(states, steps) && i < |steps| && s in StartsOf(states[i], steps[i].step, steps[i].now)
    requires Competes(states[i], j, steps[i].now)
    ensures var db, d := states[i], states[i + 1];
            && s.job in db.jobs && db.jobs[s.job].readySeq.Some? && j in d.jobs
            && (db.jobs[j].priority > db.jobs[s.job].priority ==> d.jobs[j].state.Starting?)
            && (s.bypasses.None? && (db.reservation.None? || db.reservation.value.job != s.job)
                && db.jobs[j].priority == db.jobs[s.job].priority && db.jobs[j].readySeq.value < db.jobs[s.job].readySeq.value
                ==> d.jobs[j].state.Starting?)
  {
    hide Inv, PassPlan, Pass;
    var db, now := states[i], steps[i].now;
    RunKeepsInv(states, steps, i, now);
    PassRespects(db, now, s, j);
    PassStarts(db, now);
  }

  /** The jobs a pass starts are starting after it. */
  lemma PassStarts(db: Db, now: int)
    requires Inv(db, now) && !db.paused
    ensures Pass(db, now).jobs.Keys == db.jobs.Keys
    ensures forall j | j in StartedJobs(PassPlan(db, now).starts) :: j in db.jobs && Pass(db, now).jobs[j].state.Starting?
  {
    hide Settled, ReservationOk, Core, ScanPass, ActiveLeases, EligibleCandidates, BypassesCommit, ReservationsCommit, StartAll, NextReservation;
    PlanFacts(db, now);
    StartAllFrame(db, PassPlan(db, now).starts);
  }

  lemma InvIsCore(db: Db, now: int)
    requires Inv(db, now)
    ensures Core(db)
  {
  }

  lemma CandidatesCompete(db: Db, now: int)
    requires Inv(db, now)
    ensures Ranked(EligibleCandidates(db, now)) && UniqueJobs(EligibleCandidates(db, now))
    ensures forall j :: Competes(db, j, now) <==> IsEligible(db, j, now)
    ensures forall j | Competes(db, j, now) :: CandidateOf(db, j) in EligibleCandidates(db, now)
  {
    hide Settled, ReservationOk, AttemptSide, EligibleCandidates;
    EligibleFacts(db, now);
  }

  // -------------------------------------------------------------------------
  // A new reservation
  // -------------------------------------------------------------------------

  /** A reservation is created waiting for exactly the leases active after the pass, those of jobs that
      already bypassed it apart; all of their jobs have spent their bypass, and nobody else has. */
  lemma PassNewReservation(db: Db, now: int)
    requires Inv(db, now) && !db.paused && PassPlan(db, now).create.Some?
    ensures var d, starts := Pass(db, now), PassPlan(db, now).starts;
            && d.reservation.Some?
            && var r := d.reservation.value;
               && r.cutoff == 0 && r.consumed == ActiveJobs(d)
               && forall a :: a in r.blockers <==>
                    a in ActiveSet(d) && !(exists s :: s in starts && s.bypasses == Some(r.job) && s.job == d.leases[a].job)
  {
    hide Settled, ReservationOk, JobSide, ScanPass, ActiveLeases, EligibleCandidates, BypassesCommit, StartAll, AttemptsOk, OneLive,
         ActiveOk, CountsOk;
    var starts, n := PassPlan(db, now).starts, PassPlan(db, now).create.value;
    PlanFacts(db, now);
    var d := StartAll(db, starts);
    assert Pass(db, now).leases == d.leases;
    ActiveAfter(db, starts);
    ActiveJobsFacts(db);
    ActiveJobsAfter(db, starts);
    assert PlainJobs(starts, n.job) + BypassJobs(starts, n.job) == StartedJobs(starts);
    assert ActiveJobs(Pass(db, now)) == ActiveJobs(d);
    forall a ensures a in Blockers(db, starts, n.job) <==>
                     a in ActiveSet(d) && !(exists s :: s in starts && s.bypasses == Some(n.job) && s.job == d.leases[a].job)
    {
      BlockerExact(db, now, starts, n.job, a);
    }
  }

  /** Active leases after the starts: the old ones, and one per start in order. */
  lemma ActiveAfter(db: Db, starts: seq<Start>)
    requires Startable(db, starts) && Distinct(starts) && LeaseIdsOk(db)
    ensures var d := StartAll(db, starts);
            forall a :: a in ActiveSet(d) <==> a in ActiveSet(db) || db.lastAttempt < a <= db.lastAttempt + |starts|
    ensures var d := StartAll(db, starts);
            && (forall a | a in ActiveSet(db) :: d.leases[a] == db.leases[a])
            && (forall a: AttemptId | db.lastAttempt < a <= db.lastAttempt + |starts| ::
                  a in d.leases && d.leases[a].job == starts[a - db.lastAttempt - 1].job)
  {
    hide StartAll, Distinct;
    var d := StartAll(db, starts);
    StartAllOld(db, starts);
    StartAllCount(db, starts);
    StartAllFrame(db, starts);
    forall a: AttemptId | db.lastAttempt < a <= db.lastAttempt + |starts|
      ensures a in d.leases && a in ActiveSet(d) && d.leases[a].job == starts[a - db.lastAttempt - 1].job
    {
      StartAllNew(db, starts, a - db.lastAttempt - 1);
    }
  }

  lemma ActiveJobsAfter(db: Db, starts: seq<Start>)
    requires Startable(db, starts) && Distinct(starts) && LeaseIdsOk(db)
    ensures ActiveJobs(StartAll(db, starts)) == ActiveJobs(db) + StartedJobs(starts)
  {
    hide StartAll, Distinct;
    var d := StartAll(db, starts);
    ActiveAfter(db, starts);
    forall j | j in ActiveJobs(d) ensures j in ActiveJobs(db) + StartedJobs(starts) {
      var a :| a in ActiveSet(d) && d.leases[a].job == j;
      if a !in ActiveSet(db) {
        var k: nat := a - db.lastAttempt - 1;
        assert db.lastAttempt + 1 + k == a && starts[k] in starts;
      }
    }
    forall j | j in ActiveJobs(db) + StartedJobs(starts) ensures j in ActiveJobs(d) {
      if j in ActiveJobs(db) {
        var a :| a in ActiveSet(db) && db.leases[a].job == j;
        assert a in ActiveSet(d);
      } else {
        var s :| s in starts && s.job == j;
        var k: nat :| k < |starts| && starts[k] == s;
        assert db.lastAttempt + 1 + k in ActiveSet(d);
      }
    }
  }

  lemma BlockerExact(db: Db, now: int, starts: seq<Start>, protected: JobId, a: AttemptId)
    requires Core(db) && Startable(db, starts) && Distinct(starts) && forall s | s in starts :: IsEligible(db, s.job, now)
    ensures var d := StartAll(db, starts);
            a in Blockers(db, starts, protected) <==>
              a in ActiveSet(d) && !(exists s :: s in starts && s.bypasses == Some(protected) && s.job == d.leases[a].job)
  {
    hide JobSide, StartAll, OneLive, ActiveOk, CountsOk;
    var d := StartAll(db, starts);
    ActiveAfter(db, starts);
    if a in ActiveSet(db) {
      assert AttemptOk(db, a);
    } else if a in ActiveSet(d) {
      var k: nat := a - db.lastAttempt - 1;
      assert db.lastAttempt + 1 + k == a && starts[k] in starts;
      if exists s :: s in starts && s.bypasses == Some(protected) && s.job == d.leases[a].job {
        var s :| s in starts && s.bypasses == Some(protected) && s.job == d.leases[a].job;
        var m :| 0 <= m < |starts| && starts[m] == s;
        assert m == k;
      }
    }
  }
}
