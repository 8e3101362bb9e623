/**
 When client mutations are accepted, in terms of the tables alone, and the
 numbering of attempts that an operator names them by.
 */
module QueueAcceptance {
  import opened Domain
  import opened Scheduler
  import opened PassProperties
  import opened Tables
  import opened Dependencies
  import opened Submissions
  import opened Transactions
  import opened QueueInvariant
  import opened QueueSteps
  import opened QueueMotion
  import opened QueueRuns
  import opened QueueLaws

  // -------------------------------------------------------------------------
  // Attempt numbers
  // -------------------------------------------------------------------------

  ghost predicate NumbersBounded(db: Db) {
    forall a | a in db.attempts :: 1 <= db.attempts[a].number <= |AttemptsOf(db, db.attempts[a].job)|
  }

  ghost predicate NumbersUnique(db: Db) {
    forall a, b | a in db.attempts && b in db.attempts && db.attempts[a].job == db.attempts[b].job
                  && db.attempts[a].number == db.attempts[b].number :: a == b
  }

  /** The attempts of a job are numbered from 1 up to their count, without repetition. */
  ghost predicate NumbersOk(db: Db) {
    NumbersBounded(db) && NumbersUnique(db)
  }

  lemma NumbersKept(db: Db, d: Db)
    requires NumbersOk(db) && d.attempts.Keys == db.attempts.Keys
    requires forall a | a in db.attempts :: d.attempts[a].job == db.attempts[a].job && d.attempts[a].number == db.attempts[a].number
    ensures NumbersOk(d)
  {
    forall a | a in d.attempts ensures 1 <= d.attempts[a].number <= |AttemptsOf(d, d.attempts[a].job)| {
      assert AttemptsOf(d, d.attempts[a].job) == AttemptsOf(db, d.attempts[a].job);
    }
  }

  lemma StartBounded(db: Db, j: JobId)
    requires NumbersBounded(db) && CountsOk(db) && j in db.jobs && db.lastAttempt + 1 !in db.attempts
    ensures NumbersBounded(StartJob(db, j))
  {
    var d, id := StartJob(db, j), db.lastAttempt + 1;
    assert AttemptsOf(d, j) == AttemptsOf(db, j) + {id} && id !in AttemptsOf(db, j);
    forall a | a in d.attempts ensures 1 <= d.attempts[a].number <= |AttemptsOf(d, d.attempts[a].job)| {
      var i := d.attempts[a].job;
      assert i != j ==> AttemptsOf(d, i) == AttemptsOf(db, i);
      assert a != id ==> d.attempts[a] == db.attempts[a];
    }
  }

  lemma StartUnique(db: Db, j: JobId)
    requires NumbersOk(db) && CountsOk(db) && j in db.jobs && db.lastAttempt + 1 !in db.attempts
    ensures NumbersUnique(StartJob(db, j))
  {
    hide AttemptsOf;
    var d, id := StartJob(db, j), db.lastAttempt + 1;
    forall a | a in d.attempts && a != id && d.attempts[a].job == j ensures d.attempts[a].number < d.attempts[id].number {
      assert d.attempts[a] == db.attempts[a];
    }
  }

  lemma StartNumbers(db: Db, j: JobId)
    requires NumbersOk(db) && CountsOk(db) && j in db.jobs && db.lastAttempt + 1 !in db.attempts
    ensures NumbersOk(StartJob(db, j))
  {
    StartBounded(db, j);
    StartUnique(db, j);
  }

  lemma {:induction false} StartAllNumbers(db: Db, starts: seq<Start>, now: int)
    requires Core(db) && NumbersOk(db) && Startable(db, starts) && Distinct(starts)
    requires forall s | s in starts :: db.jobs[s.job].state.Queued? && db.jobs[s.job].readySeq.Some?
    ensures NumbersOk(StartAll(db, starts))
    decreases |starts|
  {
    if starts != [] {
      hide JobSide, AttemptsOk, OneLive, ActiveOk, NumbersOk, CountsOk;
      assert starts[0] in starts && db.lastAttempt + 1 !in db.leases;
      StartNumbers(db, starts[0].job);
      StartJobCore(db, starts[0].job);
      forall i | 0 <= i < |starts[1..]| ensures starts[1..][i] in starts && starts[1..][i].job != starts[0].job {
        assert starts[1..][i] == starts[i + 1];
      }
      StartAllNumbers(StartJob(db, starts[0].job), starts[1..], now);
    }
  }

  lemma StepNumbers(db: Db, step: Step, now: int)
    requires Inv(db, now) && Enabled(db, step) && NumbersOk(db)
    ensures NumbersOk(Next(db, step, now))
  {
    hide Core, Settled, ReservationOk, Advance, Apply, Pass, Finalize, NumbersOk, Next;
    if step.SchedulePass? {
      PassNumbers(db, now);
      PassIsNext(db, now);
    } else {
      StepQuiet(db, step, now);
      NumbersKept(db, Next(db, step, now));
    }
  }

  lemma PassIsNext(db: Db, now: int)
    ensures Next(db, SchedulePass, now) == Pass(db, now)
  {
  }

  lemma PassNumbers(db: Db, now: int)
    requires Core(db) && NumbersOk(db)
    ensures NumbersOk(Pass(db, now))
  {
    hide Core, NumbersOk, ScanPass, ActiveLeases, EligibleCandidates, BypassesCommit, ReservationsCommit, StartAll, NextReservation;
    if !db.paused {
      PlanFacts(db, now);
      var starts := PassPlan(db, now).starts;
      StartAllNumbers(db, starts, now);
      NumbersKept(StartAll(db, starts), Pass(db, now));
    }
  }

  /** Over every run the attempts of a job carry the numbers 1, 2, 3 and so on, up to its attempt count. */
  lemma {:induction false} RunNumbers(states: seq<Db>, steps: seq<Timed>, i: nat)
    requires FromEmpty(states, steps) && i < |states|
    ensures NumbersOk(states[i])
    ensures forall j | j in states[i].jobs :: states[i].jobs[j].attemptCount == |AttemptsOf(states[i], j)|
    decreases i
  {
    hide Next, NumbersOk, JobSide, Settled, ReservationOk, AttemptsOk, OneLive, ActiveOk;
    RunKeepsInv(states, steps, i, if i == 0 then 0 else steps[i - 1].now);
    if i > 0 {
      RunNumbers(states, steps, i - 1);
      RunKeepsInv(states, steps, i - 1, steps[i - 1].now);
      StepNumbers(states[i - 1], steps[i - 1].step, steps[i - 1].now);
    } else {
      NoNumbers();
    }
  }

  lemma NoNumbers()
    ensures NumbersOk(EMPTY)
  {
  }

  // -------------------------------------------------------------------------
  // When a mutation is accepted
  // -------------------------------------------------------------------------

  /** Some other job that competes for admission has at least the priority of `j`. */
  ghost predicate OtherCompetes(db: Db, j: JobId, now: int)
    requires j in db.jobs
  {
    exists c :: && c != j && c in db.jobs && db.jobs[c].state == Queued && db.jobs[c].readySeq.Some?
                && (db.jobs[c].retryNotBefore.None? || db.jobs[c].retryNotBefore.value <= now) && db.jobs[c].priority >= db.jobs[j].priority
  }

  /** What each operation asks of the tables and of its own arguments. */
  ghost predicate Admissible(db: Db, op: Op, now: int) {
    match op
    case Submit(params) =>
      && params.limit >= 1 && params.maxAttempts >= 1 && params.retryDelay <= 0x7fff_ffff_ffff_ffff
      && (params.timeLimit.Some? ==> 1 <= params.timeLimit.value <= 0x7fff_ffff_ffff_ffff)
      && forall dep | dep in params.dependencies :: dep.job > 0 && dep.job in db.jobs
    case Cancel(j, _) =>
      && j in db.jobs
      && (|| db.jobs[j].state == Queued || db.jobs[j].state == Held
          || exists a :: && IsLiveOf(db, a, j) && db.attempts[a].state != Quarantined)
    case Yield(j, hold) =>
      && j in db.jobs && db.jobs[j].yieldable && db.jobs[j].state == JobState.Running
      && exists a :: && IsLiveOf(db, a, j) && !db.attempts[a].cancelRequested
                     && (db.attempts[a].yieldRequested || hold || OtherCompetes(db, j, now))
    case Hold(j) => j in db.jobs && db.jobs[j].state == Queued
    case Release(j) => j in db.jobs && db.jobs[j].state == Held
    case Retry(j) => j in db.jobs && (db.jobs[j].state == JobState.Failed || db.jobs[j].state == JobState.Lost)
    case SetMaxParallelRuns(j, limit) => limit >= 1 && j in db.jobs && !db.jobs[j].state.IsTerminal()
    case SetPriority(j, _) => j in db.jobs && (db.jobs[j].state == Queued || db.jobs[j].state == Held)
    case SetTimeLimit(j, limit) =>
      j in db.jobs && !db.jobs[j].state.IsTerminal() && (limit.Some? ==> 1 <= limit.value <= 0x7fff_ffff_ffff_ffff)
    case RecoverResolve(j, number, _, stillAlive) =>
      && !stillAlive
      && exists a :: && a in db.attempts && db.attempts[a].job == j && db.attempts[a].number == number
                     && (db.attempts[a].state == Orphaned || db.attempts[a].state == Quarantined)
    case Pause => true
    case Unpause => true
  }

  lemma ActiveHasLive(db: Db, j: JobId, now: int)
    requires Inv(db, now) && j in db.jobs
    ensures db.jobs[j].state.IsActive() ==> LiveAttempt(db, j).Some? && HoldsLease(db, LiveAttempt(db, j).value)
    ensures forall a: AttemptId | IsLiveOf(db, a, j) :: LiveAttempt(db, j) == Some(a) && StatesAgree(db.jobs[j].state, db.attempts[a].state)
  {
    hide Settled, ReservationOk, JobSide, OneLive, CountsOk;
    forall a: AttemptId | IsLiveOf(db, a, j) ensures LiveAttempt(db, j) == Some(a) && StatesAgree(db.jobs[j].state, db.attempts[a].state) {
      LiveIsLatest(db, a, j, now);
      assert AttemptOk(db, a);
    }
    if db.jobs[j].state.IsActive() {
      var a :| IsLiveOf(db, a, j);
      assert AttemptOk(db, a);
    }
  }

  lemma CancelAdmits(db: Db, j: JobId, force: bool, now: int)
    requires Inv(db, now)
    ensures CancelJob(db, j, force, now).Accepted? <==> Admissible(db, Cancel(j, force), now)
  {
    hide Inv, Advance, LiveAttempt;
    if j in db.jobs {
      ActiveHasLive(db, j, now);
      if LiveAttempt(db, j).Some? {
        assert IsLiveOf(db, LiveAttempt(db, j).value, j);
      }
    }
  }

  lemma YieldAdmits(db: Db, j: JobId, hold: bool, now: int)
    requires Inv(db, now)
    ensures YieldJob(db, j, hold, now).Accepted? <==> Admissible(db, Yield(j, hold), now)
  {
    hide Inv, LiveAttempt, SomeoneAhead, OtherCompetes;
    if j in db.jobs {
      ActiveHasLive(db, j, now);
      SomeoneCompetes(db, j, now);
      if LiveAttempt(db, j).Some? {
        assert IsLiveOf(db, LiveAttempt(db, j).value, j);
      }
    }
  }

  lemma SomeoneCompetes(db: Db, j: JobId, now: int)
    requires Inv(db, now) && j in db.jobs
    ensures SomeoneAhead(db, j, now) <==> OtherCompetes(db, j, now)
  {
    hide Settled, ReservationOk, AttemptSide, EligibleCandidates;
    EligibleFacts(db, now);
    if OtherCompetes(db, j, now) {
      var c :| && c != j && c in db.jobs && db.jobs[c].state == Queued && db.jobs[c].readySeq.Some?
               && (db.jobs[c].retryNotBefore.None? || db.jobs[c].retryNotBefore.value <= now) && db.jobs[c].priority >= db.jobs[j].priority;
      assert CandidateOf(db, c) in EligibleCandidates(db, now);
    }
  }

  lemma ResolveAdmits(db: Db, j: JobId, number: nat, how: ResolveAs, stillAlive: bool, now: int)
    requires Inv(db, now) && NumbersOk(db)
    ensures ResolveRecovery(db, j, number, how, stillAlive, now).Accepted? <==> Admissible(db, RecoverResolve(j, number, how, stillAlive), now)
  {
    hide Settled, ReservationOk, JobSide, OneLive, ActiveOk, CountsOk, Advance;
    NumberFound(db, j, number, db.lastAttempt);
    forall a | a in db.attempts && db.attempts[a].job == j && db.attempts[a].number == number
      ensures ByNumber(db, j, number, db.lastAttempt) == Some(a) && j in db.jobs && a in db.leases
    {
      assert AttemptOk(db, a) && a <= db.lastAttempt;
      NumberReached(db, j, number, db.lastAttempt, a);
    }
    if ByNumber(db, j, number, db.lastAttempt).Some? {
      var a := ByNumber(db, j, number, db.lastAttempt).value;
      assert a in db.attempts && db.attempts[a].job == j && db.attempts[a].number == number;
    }
  }

  lemma {:induction false} NumberReached(db: Db, j: JobId, number: nat, n: AttemptId, a: AttemptId)
    requires 1 <= a <= n && a in db.attempts && db.attempts[a].job == j && db.attempts[a].number == number
    ensures ByNumber(db, j, number, n).Some?
  {
    if a < n {
      NumberReached(db, j, number, n - 1, a);
    }
  }

  lemma LimitAdmits(db: Db, j: JobId, limit: nat, now: int)
    requires Inv(db, now)
    ensures SetLimit(db, j, limit).Accepted? <==> limit >= 1 && j in db.jobs && !db.jobs[j].state.IsTerminal()
    ensures SetLimit(db, j, limit).Accepted? ==> j in SetLimit(db, j, limit).db.jobs && SetLimit(db, j, limit).db.jobs[j].limit == limit
  {
    hide Inv, LiveAttempt;
    if j in db.jobs {
      ActiveHasLive(db, j, now);
    }
  }

  lemma TimeLimitAdmits(db: Db, j: JobId, limit: Option<nat>, now: int)
    requires Inv(db, now)
    ensures SetJobTimeLimit(db, j, limit, now).Accepted? <==> Admissible(db, SetTimeLimit(j, limit), now)
  {
    hide Inv, LiveAttempt;
    if j in db.jobs {
      ActiveHasLive(db, j, now);
    }
  }

  /** Over every run an operation is accepted exactly when what it asks for holds, and the row it edits
      then reads as requested. */
  lemma RunAccepts(states: seq<Db>, steps: seq<Timed>, i: nat, op: Op, now: int)
    requires FromEmpty(states, steps) && i < |states| && (i > 0 ==> steps[i - 1].now <= now)
    ensures Apply(states[i], op, now).Accepted? <==> Admissible(states[i], op, now)
    ensures Apply(states[i], op, now).Accepted? ==>
              var d := Apply(states[i], op, now).db;
              match op
              case SetMaxParallelRuns(j, limit) => j in d.jobs && d.jobs[j].limit == limit
              case SetPriority(j, priority) => j in d.jobs && d.jobs[j].priority == priority
              case SetTimeLimit(j, limit) => j in d.jobs && d.jobs[j].timeLimit == limit
              case Hold(j) => j in d.jobs && d.jobs[j].state == Held
              case Release(j) => j in d.jobs && d.jobs[j].state == Queued
              case Pause => d == states[i].(paused := true)
              case Unpause => d == states[i].(paused := false)
              case _ => true
  {
    hide Inv, Advance, CancelJob, YieldJob, ResolveRecovery, SetLimit, InsertJob, LiveAttempt, NumbersOk;
    var db := states[i];
    RunKeepsInv(states, steps, i, now);
    match op
    case Cancel(j, force) => CancelAdmits(db, j, force, now);
    case Yield(j, hold) => YieldAdmits(db, j, hold, now);
    case SetMaxParallelRuns(j, limit) => LimitAdmits(db, j, limit, now);
    case SetTimeLimit(j, limit) => TimeLimitAdmits(db, j, limit, now);
    case RecoverResolve(j, number, how, alive) =>
      RunNumbers(states, steps, i);
      ResolveAdmits(db, j, number, how, alive, now);
    case _ =>
  }
}
