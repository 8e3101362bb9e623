/**
 What a waiting job gains: a protected job starts once the active leases have
 drained, and a yield makes room for a job that is then ahead in line.
 */
module QueueProgress {
  import opened Domain
  import opened Scheduler
  import opened PassProperties
  import opened Tables
  import opened Dependencies
  import opened Transactions
  import opened QueueInvariant
  import opened QueueSteps
  import opened QueueMotion
  import opened QueueRuns
  import opened QueueFairness

  // -------------------------------------------------------------------------
  // The protected job
  // -------------------------------------------------------------------------

  /** With nothing active the first candidate that is looked at fits. */
  lemma EmptySetAdmits(eligible: seq<Candidate>, reservation: ReservationSnapshot)
    requires Listed(eligible, reservation.job) && forall c | c in eligible :: c.limit >= 1
    ensures var plan := ScanPass([], eligible, Some(reservation));
            if eligible[0].priority > Lookup(eligible, reservation.job).priority
            then !plan.satisfy && plan.invalidate == Some(Superseded) && plan.starts != [] && plan.starts[0] == Start(eligible[0].job, None)
            else plan.satisfy && plan.starts != [] && plan.starts[0] == Start(reservation.job, None)
  {
    assert eligible[0] in eligible;
  }

  /** In every reachable state with a reservation and no active lease, the next pass starts the protected
      job first, or first starts a job of higher priority that supersedes it. */
  lemma RunDrainedStarts(states: seq<Db>, steps: seq<Timed>, i: nat, now: int)
    requires FromEmpty(states, steps) && i < |states| && (i > 0 ==> steps[i - 1].now <= now)
    requires states[i].reservation.Some? && ActiveSet(states[i]) == {}
    ensures var db, plan := states[i], PassPlan(states[i], now);
            var protected := db.reservation.value.job;
            && plan.starts != [] && protected in db.jobs && plan.starts[0].job in db.jobs && plan.starts[0].bypasses.None?
            && if plan.satisfy then plan.starts[0].job == protected
               else plan.invalidate == Some(Superseded) && db.jobs[plan.starts[0].job].priority > db.jobs[protected].priority
  {
    hide Settled, ScanPass, EligibleCandidates, Next;
    RunKeepsInv(states, steps, i, now);
    var db := states[i];
    var eligible := EligibleCandidates(db, now);
    EligibleFacts(db, now);
    ActiveRowFacts(db);
    assert ActiveLeases(db) == [];
    forall c | c in eligible ensures c.limit >= 1 {
      RowFact(db, c.job);
    }
    EmptySetAdmits(eligible, Snapshot(db).value);
    assert eligible[0] in eligible && Lookup(eligible, db.reservation.value.job) == CandidateOf(db, db.reservation.value.job);
  }

  /** So once the cutoff is pinned, the protected job waits for at most as many starts as there were
      waiters, and for the leases to drain: the pass that finds them drained starts it, unless a job of
      higher priority takes its place. */
  lemma RunProtectedStarts(states: seq<Db>, steps: seq<Timed>, i: nat, j: nat)
    requires FromEmpty(states, steps) && i <= j < |steps| && Pinned(states[i]) && SameReservation(states[i], states[j])
    requires steps[j].step.SchedulePass? && !states[j].paused && ActiveSet(states[j]) == {}
    ensures StartCount(states, steps, i, j) <= |Waiters(states[i])|
    ensures var db := states[j];
            var protected := states[i].reservation.value.job;
            && protected in db.jobs && protected in states[j + 1].jobs
            && (states[j + 1].jobs[protected].state.Starting?
                || exists s | s in StartsOf(db, steps[j].step, steps[j].now) ::
                     s.job in db.jobs && db.jobs[s.job].priority > db.jobs[protected].priority)
  {
    hide Inv, ScanPass, EligibleCandidates, ActiveLeases, Waiters, Stage, StartCount, BypassesCommit, ReservationsCommit, NextReservation,
         StartAll, Snapshot, PendingFreeze;
    var db, now := states[j], steps[j].now;
    RunBoundedBypass(states, steps, i, j);
    RunReservationEvolves(states, steps, i, j);
    RunDrainedStarts(states, steps, j, now);
    RunKeepsInv(states, steps, j, now);
    var starts := PassPlan(db, now).starts;
    PlanFacts(db, now) by {
      InvCore(db, now);
    }
    StartAllFrame(db, starts);
    assert starts[0] in starts;
  }

  lemma InvCore(db: Db, now: int)
    requires Inv(db, now)
    ensures Core(db)
  {
  }

  // -------------------------------------------------------------------------
  // Yields
  // -------------------------------------------------------------------------

  /** Where `a` and `b` both compete for admission, `a` is ahead. */
  ghost predicate Ahead(db: Db, a: JobId, b: JobId, now: int) {
    IsEligible(db, a, now) && (IsEligible(db, b, now) ==> Before(CandidateOf(db, a), CandidateOf(db, b)))
  }

  /** `j` waits again after step `k`. */
  ghost predicate RequeuedAt(states: seq<Db>, steps: seq<Timed>, k: nat, j: JobId)
    requires IsRun(states, steps)
  {
    && k < |steps| && Requeued(states[k], steps[k].step) == Some(j)
    && j in states[k].jobs && j in states[k + 1].jobs
    && !states[k].jobs[j].state.IsWaiting() && states[k + 1].jobs[j].state.IsWaiting()
  }

  /** Sending `j` back to waiting touches no other candidate, and no priority. */
  lemma RequeueKeepsOthers(db: Db, step: Step, now: int, j: JobId, c: JobId)
    requires Inv(db, now) && Enabled(db, step) && Requeued(db, step) == Some(j) && j in db.jobs && c != j
    requires !db.jobs[j].state.IsWaiting() && IsEligible(db, c, now)
    ensures var d := Next(db, step, now);
            && c in d.jobs && d.jobs[c] == db.jobs[c]
            && j in d.jobs && d.jobs[j].priority == db.jobs[j].priority
  {
    hide Settled, ReservationOk, AttemptSide, Advance, Used;
    match step
    case Finish(a, state) =>
      FinishedRow(db, a, state, now);
      var after := JobAfter(db.jobs[j], db.attempts[a], state, Used(db, a, state), now);
      var mid := Close(db, a, state, after);
      RowKeepsOthers(db, mid, j, now, c);
    case Mutate(op) =>
      if RetryJob(db, j, now).Accepted? {
        var row := db.jobs[j].(state := Queued, retryNotBefore := None, readySeq := None);
        RowFact(db, j);
        RowKeepsOthers(db, WithJob(db, j, row), j, now, c);
      }
  }

  lemma FinishedRow(db: Db, a: AttemptId, state: AttemptState, now: int)
    requires Inv(db, now) && Enabled(db, Finish(a, state))
    ensures var job := db.jobs[db.attempts[a].job];
            !job.state.IsTerminal() && RowStep(job, JobAfter(job, db.attempts[a], state, Used(db, a, state), now))
  {
    hide Settled, ReservationOk, Core, Used;
    LiveFact(db, a, now);
    RowFact(db, db.attempts[a].job);
  }

  lemma RowKeepsOthers(db: Db, mid: Db, j: JobId, now: int, c: JobId)
    requires JobSide(db) && j in db.jobs && j in mid.jobs && c != j && IsEligible(db, c, now)
    requires mid.lastJob == db.lastJob && mid.edges == db.edges && mid.readySeq == db.readySeq
    requires mid.jobs == db.jobs[j := mid.jobs[j]] && RowStep(db.jobs[j], mid.jobs[j]) && mid.jobs[j].priority == db.jobs[j].priority
    ensures var d := Advance(mid, now);
            c in d.jobs && d.jobs[c] == db.jobs[c] && j in d.jobs && d.jobs[j].priority == db.jobs[j].priority
  {
    WithJobSide(db, mid, j);
    hide JobSide;
    AdvanceKeepsReady(mid, now, c);
    var s := Settle(mid, now);
    AssignReadyFrame(s, ReadySet(s, now), s.lastJob);
  }

  /** A job that goes back to waiting is behind every candidate of at least its priority. */
  lemma RunRequeuedBehind(states: seq<Db>, steps: seq<Timed>, k: nat, j: JobId, c: JobId)
    requires FromEmpty(states, steps) && RequeuedAt(states, steps, k, j) && c != j
    requires IsEligible(states[k], c, steps[k].now) && states[k].jobs[c].priority >= states[k].jobs[j].priority
    ensures Ahead(states[k + 1], c, j, steps[k].now)
  {
    hide Core, Settled, ReservationOk, Next;
    RunKeepsInv(states, steps, k, steps[k].now);
    RequeueKeepsOthers(states[k], steps[k].step, steps[k].now, j, c);
    RunRequeuedGoesBack(states, steps, k, j);
    assert states[k].jobs[c].readySeq.value <= states[k].readySeq by {
      SeqBounded(states[k], c, steps[k].now);
    }
  }

  lemma SeqBounded(db: Db, c: JobId, now: int)
    requires Inv(db, now) && IsEligible(db, c, now)
    ensures db.jobs[c].readySeq.value <= db.readySeq
  {
  }

  /** `c` competes with at least the priority of `j` after step `i`, and whenever `j` is sent back to
      waiting while that is still so, `c` is ahead of it. */
  ghost predicate TakesOver(states: seq<Db>, steps: seq<Timed>, i: nat, j: JobId, c: JobId)
    requires IsRun(states, steps) && i < |steps| && j in states[i + 1].jobs
  {
    && c != j && IsEligible(states[i + 1], c, steps[i].now) && states[i + 1].jobs[c].priority >= states[i + 1].jobs[j].priority
    && forall k: nat | i < k && RequeuedAt(states, steps, k, j) && IsEligible(states[k], c, steps[k].now)
                       && states[k].jobs[c].priority >= states[k].jobs[j].priority ::
         Ahead(states[k + 1], c, j, steps[k].now)
  }

  /** What an accepted yield without hold promises: there is another job of at least the same priority
      to run, and it will be ahead of the yielding job when that waits again. So a yield that would only
      restart the same job is refused. A repeated yield changes nothing. */
  lemma RunYieldGivesWay(states: seq<Db>, steps: seq<Timed>, i: nat, j: JobId)
    requires FromEmpty(states, steps) && i < |steps| && steps[i].step == Mutate(Yield(j, false)) && states[i + 1] != states[i]
    ensures j in states[i].jobs && states[i + 1].jobs == states[i].jobs
    ensures exists c :: TakesOver(states, steps, i, j, c)
  {
    hide Core, Settled, ReservationOk, EligibleCandidates, Advance;
    var db, now := states[i], steps[i].now;
    RunKeepsInv(states, steps, i, now);
    assert YieldJob(db, j, false, now).Accepted? && SomeoneAhead(db, j, now);
    var c := YieldHasSuccessor(db, j, now);
    forall k: nat | i < k && RequeuedAt(states, steps, k, j) && IsEligible(states[k], c, steps[k].now)
                    && states[k].jobs[c].priority >= states[k].jobs[j].priority
      ensures Ahead(states[k + 1], c, j, steps[k].now)
    {
      RunRequeuedBehind(states, steps, k, j, c);
    }
    assert TakesOver(states, steps, i, j, c);
  }

  lemma YieldHasSuccessor(db: Db, j: JobId, now: int) returns (c: JobId)
    requires Inv(db, now) && j in db.jobs && SomeoneAhead(db, j, now)
    ensures c != j && IsEligible(db, c, now) && db.jobs[c].priority >= db.jobs[j].priority
  {
    hide Settled, ReservationOk, AttemptSide, EligibleCandidates;
    EligibleFacts(db, now);
    var d :| d in EligibleCandidates(db, now) && d.job != j && d.priority >= db.jobs[j].priority;
    c := d.job;
  }

  // -------------------------------------------------------------------------
  // Edits the scheduler does not see
  // -------------------------------------------------------------------------

  /** `d` differs from `db` in the time limit of one job row. */
  ghost predicate SamePolicyApart(db: Db, d: Db) {
    && d == db.(jobs := d.jobs) && d.jobs.Keys == db.jobs.Keys
    && forall j | j in db.jobs :: d.jobs[j] == db.jobs[j].(timeLimit := d.jobs[j].timeLimit, timeLimitSetAt := d.jobs[j].timeLimitSetAt)
  }

  lemma {:induction false} SameCandidates(db: Db, d: Db, now: int, n: JobId)
    requires SamePolicyApart(db, d)
    ensures EligibleUpTo(d, now, n) == EligibleUpTo(db, now, n)
  {
    if n != 0 {
      SameCandidates(db, d, now, n - 1);
      assert n in db.jobs ==> d.jobs[n] == db.jobs[n].(timeLimit := d.jobs[n].timeLimit, timeLimitSetAt := d.jobs[n].timeLimitSetAt);
    }
  }

  lemma {:induction false} SameActive(db: Db, d: Db, n: AttemptId)
    requires d.leases == db.leases
    ensures ActiveUpTo(d, n) == ActiveUpTo(db, n)
  {
    if n != 0 {
      SameActive(db, d, n - 1);
    }
  }

  lemma SameLeaseRows(db: Db, d: Db)
    requires d.leases == db.leases && d.lastAttempt == db.lastAttempt
    ensures ActiveLeases(d) == ActiveLeases(db)
  {
    SameActive(db, d, db.lastAttempt);
    forall i | 0 <= i < |ActiveLeases(db)| ensures ActiveLeases(d)[i] == ActiveLeases(db)[i] {
    }
  }

  lemma SameFrontier(db: Db, d: Db)
    requires d.attempts == db.attempts && d.leases == db.leases && d.readySeq == db.readySeq && d.reservation == db.reservation
    ensures Snapshot(d) == Snapshot(db)
  {
    if db.reservation.Some? {
      var blockers := db.reservation.value.blockers;
      assert forall a | a in blockers :: BlockerAdvancing(d, a) == BlockerAdvancing(db, a);
    }
  }

  lemma SamePlan(db: Db, d: Db, now: int)
    requires SamePolicyApart(db, d)
    ensures PassPlan(d, now) == PassPlan(db, now)
  {
    hide ScanPass, ActiveLeases, Snapshot, EligibleUpTo;
    SameCandidates(db, d, now, db.lastJob);
    SameLeaseRows(db, d);
    SameFrontier(db, d);
  }

  /** Changing a time limit, even of a protected or running job, changes no plan of any later pass and
      touches no reservation; it records when the limit was set. */
  lemma TimeLimitUnseen(db: Db, j: JobId, timeLimit: Option<nat>, at: int, now: int)
    requires SetJobTimeLimit(db, j, timeLimit, at).Accepted?
    ensures var d := SetJobTimeLimit(db, j, timeLimit, at).db;
            && PassPlan(d, now) == PassPlan(db, now) && d.reservation == db.reservation
            && j in d.jobs && d.jobs[j].timeLimit == timeLimit && (d != db ==> d.jobs[j].timeLimitSetAt == Some(at))
  {
    hide PassPlan, LiveAttempt;
    SamePlan(db, SetJobTimeLimit(db, j, timeLimit, at).db, now);
  }
}
