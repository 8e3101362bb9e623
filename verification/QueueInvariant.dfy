/**
 What every transaction keeps. `Core` is kept by each row update on its own;
 `Settled` is re-established by dependency resolution at the end of every
 transaction that finishes a job; `ReservationOk` ties the active reservation
 to the job it protects.
 */
module QueueInvariant {
  import opened Domain
  import opened Scheduler
  import opened Tables
  import opened Dependencies
  import opened Submissions
  import opened Transactions

  // -------------------------------------------------------------------------
  // The invariant
  // -------------------------------------------------------------------------

  ghost predicate RowsOk(db: Db) {
    forall j | j in db.jobs :: db.jobs[j].limit >= 1 && db.jobs[j].maxAttempts >= 1
  }

  /** An attempt is live exactly while it holds its one lease, and then the three
      copies of the limit agree and so do the attempt and job states. */
  ghost predicate AttemptOk(db: Db, a: AttemptId)
    requires a in db.attempts
  {
    var t := db.attempts[a];
    && t.job in db.jobs && a in db.leases && db.leases[a].job == t.job
    && (db.leases[a].released <==> t.state.IsTerminal())
    && (!t.state.IsTerminal() ==>
          db.leases[a].limit == t.limit == db.jobs[t.job].limit && StatesAgree(db.jobs[t.job].state, t.state))
  }

  ghost predicate AttemptsOk(db: Db) {
    forall a | a in db.attempts :: AttemptOk(db, a)
  }

  ghost predicate OneLive(db: Db) {
    forall a, b | a in db.attempts && b in db.attempts && db.attempts[a].job == db.attempts[b].job
                  && !db.attempts[a].state.IsTerminal() && !db.attempts[b].state.IsTerminal() :: a == b
  }

  ghost predicate HasLive(db: Db, j: JobId) {
    exists a :: IsLiveOf(db, a, j)
  }

  ghost predicate ActiveOk(db: Db) {
    forall j | j in db.jobs && db.jobs[j].state.IsActive() :: HasLive(db, j)
  }

  function AttemptsOf(db: Db, j: JobId): set<AttemptId> {
    set a | a in db.attempts && db.attempts[a].job == j
  }

  ghost predicate CountsOk(db: Db) {
    forall j | j in db.jobs :: db.jobs[j].attemptCount == |AttemptsOf(db, j)|
  }

  ghost predicate ReadyOk(db: Db) {
    && ReadyUnique(db)
    && (forall j | j in db.jobs && db.jobs[j].readySeq.Some? :: 1 <= db.jobs[j].readySeq.value <= db.readySeq)
  }

  ghost predicate LatchesOk(db: Db) {
    forall k | k in db.edges && db.edges[k].latch.Some? ::
      var latch := db.edges[k].latch.value;
      latch.outcome.IsTerminal() && latch.resolution == Resolve(db.edges[k].condition, latch.outcome)
  }

  /** The job holds a place in the readiness order, or has been started at some time. */
  predicate Committed(job: Job) {
    || (job.state.IsWaiting() && job.readySeq.Some?)
    || job.state.IsActive() || job.state.Succeeded? || job.state.Failed? || job.state.Lost?
  }

  ghost predicate PrerequisitesOk(db: Db) {
    forall k | k in db.edges && k.1 in db.jobs && Committed(db.jobs[k.1]) :: IsSatisfied(db.edges[k])
  }

  /** The part about attempts, leases and the jobs that own them. */
  ghost predicate AttemptSide(db: Db) {
    && LeaseIdsOk(db) && db.leases.Keys == db.attempts.Keys
    && AttemptsOk(db) && OneLive(db) && ActiveOk(db) && CountsOk(db)
  }

  /** The part about job rows, edges and the readiness order. */
  ghost predicate JobSide(db: Db) {
    && JobIdsOk(db) && EdgesOk(db) && RowsOk(db)
    && ReadyOk(db) && LatchesOk(db) && PrerequisitesOk(db)
  }

  ghost predicate Core(db: Db) {
    AttemptSide(db) && JobSide(db)
  }

  /** The protected job is queued, ready and past its retry delay. */
  ghost predicate ReservationOk(db: Db, now: int) {
    match db.reservation
    case None => true
    case Some(r) =>
      && IsEligible(db, r.job, now)
      && 1 <= r.id <= db.lastReservation && r.cutoff <= db.readySeq
      && forall a | a in r.blockers :: a <= db.lastAttempt
  }

  ghost predicate Inv(db: Db, now: int) {
    Core(db) && Settled(db) && ReservationOk(db, now)
  }

  lemma EmptyOk(now: int)
    ensures Inv(EMPTY, now)
  {
  }

  // -------------------------------------------------------------------------
  // Row updates keep Core
  // -------------------------------------------------------------------------

  /** A job row may change its state and give up its readiness position. */
  ghost predicate RowStep(before: Job, after: Job) {
    && after.limit >= 1 && after.maxAttempts >= 1
    && (after.readySeq == before.readySeq || after.readySeq.None?)
    && (Committed(after) ==> Committed(before))
  }

  lemma JobSideKept(db: Db, d: Db)
    requires JobSide(db)
    requires d.lastJob == db.lastJob && d.edges == db.edges && d.readySeq == db.readySeq && d.jobs.Keys == db.jobs.Keys
    requires forall j | j in db.jobs :: RowStep(db.jobs[j], d.jobs[j])
    ensures JobSide(d)
  {
  }

  lemma WithJobSide(db: Db, d: Db, j: JobId)
    requires JobSide(db) && j in db.jobs && j in d.jobs
    requires d.lastJob == db.lastJob && d.edges == db.edges && d.readySeq == db.readySeq
    requires d.jobs == db.jobs[j := d.jobs[j]] && RowStep(db.jobs[j], d.jobs[j])
    ensures JobSide(d)
  {
    forall i | i in db.jobs ensures RowStep(db.jobs[i], d.jobs[i]) {
      assert i != j ==> d.jobs[i] == db.jobs[i];
    }
    JobSideKept(db, d);
  }

  /** Attempts and leases stay, and so do the rows of active jobs. */
  lemma WithJobAttempts(db: Db, j: JobId, job: Job)
    requires AttemptSide(db) && j in db.jobs
    requires !db.jobs[j].state.IsActive() && !job.state.IsActive() && job.attemptCount == db.jobs[j].attemptCount
    ensures AttemptSide(WithJob(db, j, job))
  {
    var d := WithJob(db, j, job);
    forall a | a in d.attempts ensures AttemptOk(d, a) {
      assert AttemptOk(db, a);
    }
    KeepCounts(db, d);
    KeepActive(db, d);
  }

  lemma KeepCounts(db: Db, d: Db)
    requires CountsOk(db) && d.jobs.Keys == db.jobs.Keys && d.attempts.Keys == db.attempts.Keys
    requires forall a | a in db.attempts :: d.attempts[a].job == db.attempts[a].job
    requires forall j | j in db.jobs :: d.jobs[j].attemptCount == db.jobs[j].attemptCount
    ensures CountsOk(d)
  {
    forall j | j in d.jobs ensures AttemptsOf(d, j) == AttemptsOf(db, j) {
    }
  }

  lemma KeepActive(db: Db, d: Db)
    requires ActiveOk(db) && d.jobs.Keys == db.jobs.Keys
    requires forall j, a | j in d.jobs && d.jobs[j].state.IsActive() && IsLiveOf(db, a, j) :: IsLiveOf(d, a, j)
    requires forall j | j in d.jobs && d.jobs[j].state.IsActive() :: db.jobs[j].state.IsActive()
    ensures ActiveOk(d)
  {
    forall j | j in d.jobs && d.jobs[j].state.IsActive() ensures HasLive(d, j) {
      var a :| IsLiveOf(db, a, j);
      assert IsLiveOf(d, a, j);
    }
  }

  /** Replacing the row of a job that has no live attempt before or after. */
  lemma WithJobCore(db: Db, j: JobId, job: Job)
    requires Core(db) && j in db.jobs
    requires !db.jobs[j].state.IsActive() && !job.state.IsActive() && job.attemptCount == db.jobs[j].attemptCount
    requires RowStep(db.jobs[j], job)
    ensures Core(WithJob(db, j, job))
  {
    WithJobAttempts(db, j, job);
    WithJobSide(db, WithJob(db, j, job), j);
  }

  /** `d` differs from `db` in one live attempt, its lease and its job row. */
  ghost predicate OneAttemptStep(db: Db, d: Db, a: AttemptId) {
    && a in db.attempts && a in db.leases && !db.attempts[a].state.IsTerminal()
    && a in d.attempts && a in d.leases
    && var j := db.attempts[a].job;
       && j in db.jobs && j in d.jobs
       && d.lastAttempt == db.lastAttempt
       && d.attempts == db.attempts[a := d.attempts[a]] && d.leases == db.leases[a := d.leases[a]] && d.jobs == db.jobs[j := d.jobs[j]]
       && d.attempts[a].job == j && d.leases[a].job == j && d.jobs[j].attemptCount == db.jobs[j].attemptCount
       && (d.leases[a].released <==> d.attempts[a].state.IsTerminal())
       && if d.attempts[a].state.IsTerminal() then !d.jobs[j].state.IsActive()
          else d.leases[a].limit == d.attempts[a].limit == d.jobs[j].limit && StatesAgree(d.jobs[j].state, d.attempts[a].state)
  }

  lemma OneAttemptRows(db: Db, d: Db, a: AttemptId)
    requires AttemptsOk(db) && OneLive(db) && OneAttemptStep(db, d, a)
    ensures AttemptsOk(d) && OneLive(d)
  {
    forall b | b in d.attempts ensures AttemptOk(d, b) {
      assert AttemptOk(db, b) && AttemptOk(db, a);
    }
  }

  lemma OneAttemptKept(db: Db, d: Db, a: AttemptId)
    requires AttemptSide(db) && OneAttemptStep(db, d, a)
    ensures AttemptSide(d)
  {
    OneAttemptRows(db, d, a);
    OneAttemptCounts(db, d, a);
    OneAttemptActive(db, d, a);
  }

  lemma OneAttemptCounts(db: Db, d: Db, a: AttemptId)
    requires CountsOk(db) && OneAttemptStep(db, d, a)
    ensures CountsOk(d)
  {
    KeepCounts(db, d);
  }

  lemma OneAttemptActive(db: Db, d: Db, a: AttemptId)
    requires AttemptsOk(db) && ActiveOk(db) && OneAttemptStep(db, d, a)
    ensures ActiveOk(d)
  {
    assert AttemptOk(db, a);
    KeepActive(db, d);
  }

  /** Setting flags of a live attempt. */
  lemma WithAttemptCore(db: Db, a: AttemptId, t: Attempt)
    requires Core(db) && a in db.attempts && !db.attempts[a].state.IsTerminal()
    requires t.job == db.attempts[a].job && t.state == db.attempts[a].state && t.limit == db.attempts[a].limit
    ensures Core(WithAttempt(db, a, t))
  {
    assert AttemptOk(db, a);
    OneAttemptKept(db, WithAttempt(db, a, t), a);
    WithJobSide(db, WithAttempt(db, a, t), t.job);
  }

  lemma WithLiveCore(db: Db, a: AttemptId, state: AttemptState, jobState: JobState)
    requires Core(db) && a in db.attempts && !db.attempts[a].state.IsTerminal()
    requires !state.IsTerminal() && StatesAgree(jobState, state)
    ensures db.attempts[a].job in db.jobs && Core(WithLive(db, a, state, jobState))
  {
    assert AttemptOk(db, a);
    OneAttemptKept(db, WithLive(db, a, state, jobState), a);
    WithJobSide(db, WithLive(db, a, state, jobState), db.attempts[a].job);
  }

  /** Ending a live attempt and releasing its lease. */
  lemma CloseCore(db: Db, a: AttemptId, state: AttemptState, job: Job)
    requires Core(db) && a in db.attempts && !db.attempts[a].state.IsTerminal() && state.IsTerminal()
    requires db.attempts[a].job in db.jobs && !job.state.IsActive()
    requires job.attemptCount == db.jobs[db.attempts[a].job].attemptCount && RowStep(db.jobs[db.attempts[a].job], job)
    ensures a in db.leases && Core(Close(db, a, state, job))
  {
    assert AttemptOk(db, a);
    OneAttemptKept(db, Close(db, a, state, job), a);
    WithJobSide(db, Close(db, a, state, job), db.attempts[a].job);
  }

  lemma WithLimitCore(db: Db, j: JobId, a: AttemptId, limit: nat)
    requires Core(db) && j in db.jobs && IsLiveOf(db, a, j) && limit >= 1
    ensures a in db.leases && Core(WithLimit(db, j, a, limit))
  {
    assert AttemptOk(db, a);
    OneAttemptKept(db, WithLimit(db, j, a, limit), a);
    WithJobSide(db, WithLimit(db, j, a, limit), j);
  }

  lemma StartJobCore(db: Db, j: JobId)
    requires Core(db) && j in db.jobs && db.jobs[j].state.Queued? && db.jobs[j].readySeq.Some?
    ensures Core(StartJob(db, j))
  {
    StartJobAttempts(db, j);
    WithJobSide(db, StartJob(db, j), j);
  }

  lemma StartJobAttempts(db: Db, j: JobId)
    requires AttemptSide(db) && j in db.jobs && db.jobs[j].state.Queued?
    ensures AttemptSide(StartJob(db, j))
  {
    var id := db.lastAttempt + 1;
    assert id !in db.leases && id !in db.attempts;
    StartJobRows(db, j);
    StartJobCounts(db, j);
    StartJobActive(db, j);
  }

  lemma StartJobRows(db: Db, j: JobId)
    requires AttemptsOk(db) && OneLive(db) && j in db.jobs && db.jobs[j].state.Queued? && db.lastAttempt + 1 !in db.attempts
    ensures AttemptsOk(StartJob(db, j)) && OneLive(StartJob(db, j))
  {
    var d := StartJob(db, j);
    forall b | b in d.attempts ensures AttemptOk(d, b) {
      assert b in db.attempts ==> AttemptOk(db, b);
    }
    forall b | b in db.attempts && db.attempts[b].job == j ensures db.attempts[b].state.IsTerminal() {
      assert AttemptOk(db, b);
    }
  }

  lemma StartJobActive(db: Db, j: JobId)
    requires ActiveOk(db) && j in db.jobs && db.lastAttempt + 1 !in db.attempts
    ensures ActiveOk(StartJob(db, j))
  {
    var d := StartJob(db, j);
    forall i | i in d.jobs && d.jobs[i].state.IsActive() ensures HasLive(d, i) {
      if i == j {
        assert IsLiveOf(d, db.lastAttempt + 1, j);
      } else {
        var b :| IsLiveOf(db, b, i);
        assert IsLiveOf(d, b, i);
      }
    }
  }

  lemma StartJobCounts(db: Db, j: JobId)
    requires CountsOk(db) && j in db.jobs && db.lastAttempt + 1 !in db.attempts
    ensures CountsOk(StartJob(db, j))
  {
    var d := StartJob(db, j);
    var id := db.lastAttempt + 1;
    forall i | i in d.jobs ensures d.jobs[i].attemptCount == |AttemptsOf(d, i)| {
      if i == j {
        assert AttemptsOf(d, j) == AttemptsOf(db, j) + {id};
        assert id !in AttemptsOf(db, j);
      } else {
        assert AttemptsOf(d, i) == AttemptsOf(db, i);
      }
    }
  }

  // -------------------------------------------------------------------------
  // Dependency resolution keeps Core and settles
  // -------------------------------------------------------------------------

  /** Settling moves waiting rows only, out of waiting. */
  lemma SettleRows(db: Db, now: int)
    ensures var d := Settle(db, now);
            && d == db.(jobs := d.jobs, edges := d.edges) && d.jobs.Keys == db.jobs.Keys
            && (forall j | j in db.jobs :: d.jobs[j].attemptCount == db.jobs[j].attemptCount)
            && (forall j | j in db.jobs :: d.jobs[j].limit == db.jobs[j].limit && d.jobs[j].maxAttempts == db.jobs[j].maxAttempts)
            && (forall j | j in db.jobs :: d.jobs[j].readySeq == db.jobs[j].readySeq || d.jobs[j].readySeq.None?)
            && (forall j | j in db.jobs :: d.jobs[j] == db.jobs[j] || (db.jobs[j].state.IsWaiting() && !d.jobs[j].state.IsActive()))
  {
    var d := Settle(db, now);
    forall j | j in db.jobs ensures d.jobs[j] == SettledJob(db, j) {
    }
  }

  /** Rows of active jobs are untouched, so attempts, leases and jobs still agree. */
  lemma WaitingRowsMove(db: Db, d: Db)
    requires AttemptsOk(db) && ActiveOk(db)
    requires d.attempts == db.attempts && d.leases == db.leases && d.jobs.Keys == db.jobs.Keys
    requires forall j | j in db.jobs :: d.jobs[j] == db.jobs[j] || (db.jobs[j].state.IsWaiting() && !d.jobs[j].state.IsActive())
    ensures AttemptsOk(d) && ActiveOk(d)
  {
    forall a | a in d.attempts ensures AttemptOk(d, a) {
      assert AttemptOk(db, a);
    }
    KeepActive(db, d);
  }

  lemma SettleAttempts(db: Db, now: int)
    requires AttemptSide(db)
    ensures AttemptSide(Settle(db, now))
  {
    hide Settle, AttemptsOk, ActiveOk;
    var d := Settle(db, now);
    SettleRows(db, now);
    WaitingRowsMove(db, d);
    KeepCounts(db, d);
  }

  lemma SettleLatches(db: Db, now: int)
    requires LatchesOk(db)
    ensures LatchesOk(Settle(db, now))
  {
    var d := Settle(db, now);
    forall k | k in d.edges && d.edges[k].latch.Some?
      ensures var latch := d.edges[k].latch.value;
              latch.outcome.IsTerminal() && latch.resolution == Resolve(d.edges[k].condition, latch.outcome)
    {
      assert d.edges[k] == SettledEdge(db, k.0, k.1, now);
    }
  }

  lemma SettlePrerequisites(db: Db, now: int)
    requires PrerequisitesOk(db)
    ensures PrerequisitesOk(Settle(db, now))
  {
    var d := Settle(db, now);
    forall k | k in d.edges && k.1 in d.jobs && Committed(d.jobs[k.1]) ensures IsSatisfied(d.edges[k]) {
      assert d.jobs[k.1] == SettledJob(db, k.1) && Committed(db.jobs[k.1]);
      assert d.edges[k] == SettledEdge(db, k.0, k.1, now);
    }
  }

  lemma SettleReady(db: Db, now: int)
    requires ReadyOk(db) && RowsOk(db)
    ensures ReadyOk(Settle(db, now)) && RowsOk(Settle(db, now))
  {
    hide Settle;
    SettleRows(db, now);
  }

  lemma SettleJobs(db: Db, now: int)
    requires JobSide(db)
    ensures JobSide(Settle(db, now))
  {
    SettleLatches(db, now);
    SettlePrerequisites(db, now);
    SettleReady(db, now);
    SettleSettles(db, now);
  }

  lemma ReadiedAttempts(db: Db, needy: set<JobId>, n: JobId, r: Db)
    requires AttemptSide(db) && Readied(db, needy, n, r)
    ensures AttemptSide(r)
  {
    forall j | j in db.jobs ensures r.jobs[j] == db.jobs[j].(readySeq := r.jobs[j].readySeq) {
    }
    forall a | a in r.attempts ensures AttemptOk(r, a) {
      assert AttemptOk(db, a);
    }
    KeepCounts(db, r);
    KeepActive(db, r);
  }

  lemma AssignReadyUnique(db: Db, needy: set<JobId>)
    requires ReadyOk(db) && JobIdsOk(db) && needy <= db.jobs.Keys
    requires forall j | j in needy :: db.jobs[j].readySeq.None?
    ensures ReadyOk(AssignReady(db, needy, db.lastJob))
  {
    var r := AssignReady(db, needy, db.lastJob);
    AssignReadyFrame(db, needy, db.lastJob);
    forall i, j | i in r.jobs && j in r.jobs && i != j && r.jobs[i].readySeq.Some? && r.jobs[j].readySeq.Some?
      ensures r.jobs[i].readySeq != r.jobs[j].readySeq
    {
      if i in needy && j in needy {
        AssignReadyOrder(db, needy, db.lastJob, if i < j then i else j, if i < j then j else i);
      }
    }
  }

  lemma AssignReadyJobs(db: Db, now: int)
    requires JobSide(db)
    ensures JobSide(AssignReady(db, ReadySet(db, now), db.lastJob))
  {
    var needy := ReadySet(db, now);
    var r := AssignReady(db, needy, db.lastJob);
    AssignReadyFrame(db, needy, db.lastJob);
    AssignReadyUnique(db, needy);
    forall k | k in r.edges && k.1 in r.jobs && Committed(r.jobs[k.1]) ensures IsSatisfied(r.edges[k]) {
      if k.1 in needy {
        assert NeedsReady(db, k.1, now);
      }
    }
  }

  lemma AdvanceCore(db: Db, now: int)
    requires Core(db)
    ensures Core(Advance(db, now)) && Settled(Advance(db, now))
  {
    SettleAttempts(db, now);
    SettleJobs(db, now);
    var s := Settle(db, now);
    AssignReadyJobs(s, now);
    AssignReadyFrame(s, ReadySet(s, now), s.lastJob);
    ReadiedAttempts(s, ReadySet(s, now), s.lastJob, Advance(db, now));
    AdvanceSettles(db, now);
  }

  /** An eligible job is neither skipped nor moved in the readiness order. */
  lemma AdvanceKeepsReady(db: Db, now: int, j: JobId)
    requires JobSide(db) && j in db.jobs && db.jobs[j].state.IsWaiting() && db.jobs[j].readySeq.Some?
    ensures j in Advance(db, now).jobs && Advance(db, now).jobs[j] == db.jobs[j]
  {
    assert !WillSkip(db, j);
    var s := Settle(db, now);
    AssignReadyFrame(s, ReadySet(s, now), s.lastJob);
  }

  /** Everything but jobs, edges and the readiness counter is left alone. */
  lemma AdvanceFrame(db: Db, now: int)
    ensures var r := Advance(db, now);
            r == db.(jobs := r.jobs, edges := r.edges, readySeq := r.readySeq) && r.readySeq >= db.readySeq && r.jobs.Keys == db.jobs.Keys
  {
    var s := Settle(db, now);
    AssignReadyFrame(s, ReadySet(s, now), s.lastJob);
  }

  lemma AdvanceReservation(db: Db, now: int)
    requires JobSide(db) && ReservationOk(db, now)
    ensures ReservationOk(Advance(db, now), now)
  {
    AdvanceFrame(db, now);
    if db.reservation.Some? {
      AdvanceKeepsReady(db, now, db.reservation.value.job);
    }
  }

  lemma AdvanceInv(db: Db, now: int)
    requires Core(db) && ReservationOk(db, now)
    ensures Inv(Advance(db, now), now)
  {
    AdvanceCore(db, now);
    AdvanceReservation(db, now);
  }

  // -------------------------------------------------------------------------
  // Submission
  // -------------------------------------------------------------------------

  /** What an insertion adds: one row and the edges into it. */
  ghost predicate Inserted(db: Db, d: Db, params: SubmitParams) {
    var id := db.lastJob + 1;
    var collapsed := Collapse(params.dependencies);
    && d.lastJob == id && d.jobs.Keys == db.jobs.Keys + {id} && id !in db.jobs
    && (forall j | j in db.jobs :: d.jobs[j] == db.jobs[j])
    && d.jobs[id].state.Queued? && d.jobs[id].attemptCount == 0 && d.jobs[id].limit == params.limit
    && d.jobs[id].maxAttempts == params.maxAttempts && d.jobs[id].retryNotBefore.None?
    && d.edges == db.edges + NewEdges(collapsed, id)
    && d.readySeq == db.readySeq + (if collapsed.Keys == {} then 1 else 0)
    && d.jobs[id].readySeq == (if collapsed.Keys == {} then Some(d.readySeq) else None)
    && d.lastAttempt == db.lastAttempt && d.attempts == db.attempts && d.leases == db.leases
    && d.reservation == db.reservation && d.lastReservation == db.lastReservation && d.paused == db.paused
  }

  lemma InsertFrame(db: Db, params: SubmitParams)
    requires JobIdsOk(db)
    ensures Inserted(db, InsertJob(db, params), params)
  {
    hide Collapse, NewEdges;
  }

  lemma InsertAttempts(db: Db, d: Db, params: SubmitParams)
    requires AttemptSide(db) && Inserted(db, d, params)
    ensures AttemptSide(d)
  {
    var id := db.lastJob + 1;
    assert AttemptsOk(d) && (forall a | a in d.attempts :: d.attempts[a].job != id) by {
      forall a | a in d.attempts ensures AttemptOk(d, a) && d.attempts[a].job != id {
        assert AttemptOk(db, a);
      }
    }
    assert CountsOk(d) by {
      forall j | j in d.jobs ensures d.jobs[j].attemptCount == |AttemptsOf(d, j)| {
        if j == id {
          assert AttemptsOf(d, j) == {};
        } else {
          assert AttemptsOf(d, j) == AttemptsOf(db, j);
        }
      }
    }
    assert ActiveOk(d) by {
      forall j | j in d.jobs && d.jobs[j].state.IsActive() ensures HasLive(d, j) {
        var a :| IsLiveOf(db, a, j);
        assert IsLiveOf(d, a, j);
      }
    }
  }

  lemma InsertEdges(db: Db, d: Db, params: SubmitParams)
    requires EdgesOk(db) && JobIdsOk(db) && Inserted(db, d, params) && ParentsExist(db, params.dependencies)
    ensures EdgesOk(d)
    ensures forall k | k in d.edges :: if k in db.edges then d.edges[k] == db.edges[k] && k.1 in db.jobs
                                       else k.1 == d.lastJob && d.edges[k].latch.None? && Collapse(params.dependencies).Keys != {}
  {
    var id := db.lastJob + 1;
    var collapsed := Collapse(params.dependencies);
    CollapseMeaning(params.dependencies);
    forall k | k in d.edges
      ensures 0 < k.0 < k.1 && k.0 in d.jobs && k.1 in d.jobs
      ensures if k in db.edges then d.edges[k] == db.edges[k] && k.1 in db.jobs
              else k.1 == id && d.edges[k].latch.None? && collapsed.Keys != {}
    {
      if k in NewEdges(collapsed, id) {
        assert k.0 in collapsed && k.1 == id;
        assert (k.0, k.1) !in db.edges;
      } else {
        assert k in db.edges && (k.0, k.1) in db.edges;
      }
    }
  }

  lemma InsertJobs(db: Db, d: Db, params: SubmitParams)
    requires JobSide(db) && Inserted(db, d, params)
    requires ParentsExist(db, params.dependencies) && params.limit >= 1 && params.maxAttempts >= 1
    ensures JobSide(d)
  {
    InsertEdges(db, d, params);
    InsertReady(db, d, params);
    InsertLatches(db, d, params);
  }

  lemma InsertLatches(db: Db, d: Db, params: SubmitParams)
    requires LatchesOk(db) && PrerequisitesOk(db) && Inserted(db, d, params)
    requires forall k | k in d.edges :: if k in db.edges then d.edges[k] == db.edges[k] && k.1 in db.jobs
                                        else k.1 == d.lastJob && d.edges[k].latch.None? && Collapse(params.dependencies).Keys != {}
    ensures LatchesOk(d) && PrerequisitesOk(d)
  {
    forall k | k in d.edges && k.1 in d.jobs && Committed(d.jobs[k.1]) ensures IsSatisfied(d.edges[k]) {
      assert k in db.edges;
    }
  }

  lemma InsertReady(db: Db, d: Db, params: SubmitParams)
    requires ReadyOk(db) && RowsOk(db) && JobIdsOk(db) && Inserted(db, d, params) && params.limit >= 1 && params.maxAttempts >= 1
    ensures ReadyOk(d) && RowsOk(d) && JobIdsOk(d)
  {
  }

  lemma SubmitInv(db: Db, params: SubmitParams, now: int)
    requires Inv(db, now) && params.limit >= 1 && params.maxAttempts >= 1 && ParentsExist(db, params.dependencies)
    ensures Inv(Advance(InsertJob(db, params), now), now)
  {
    var d := InsertJob(db, params);
    InsertFrame(db, params);
    InsertAttempts(db, d, params);
    InsertJobs(db, d, params);
    assert ReservationOk(d, now);
    AdvanceInv(d, now);
  }
}
