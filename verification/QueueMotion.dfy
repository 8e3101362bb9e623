/**
 How the tables may move in one step, apart from the invariant: edges only
 latch, attempts only advance, a lost reservation never comes back, and a
 readiness position is either kept, given up or fresh.
 */
module QueueMotion {
  import opened Domain
  import opened Scheduler
  import opened PassProperties
  import opened Tables
  import opened Dependencies
  import opened Submissions
  import opened Transactions
  import opened QueueInvariant
  import opened QueueSteps

  /** Edges are never removed, and a latched outcome never changes. */
  ghost predicate EdgesLatch(db: Db, d: Db) {
    forall k | k in db.edges ::
      && k in d.edges && d.edges[k].condition == db.edges[k].condition
      && (db.edges[k].latch.Some? ==> d.edges[k].latch == db.edges[k].latch)
  }

  /** A skipped job stays skipped, row and all; jobs never disappear. */
  ghost predicate SkipsStay(db: Db, d: Db) {
    forall j | j in db.jobs ::
      j in d.jobs && d.jobs[j].maxAttempts == db.jobs[j].maxAttempts && (db.jobs[j].state.Skipped? ==> d.jobs[j] == db.jobs[j])
  }

  /** No attempt is created, re-opened or set advancing again, and no released lease comes back. */
  ghost predicate AttemptsSettle(db: Db, d: Db) {
    && d.lastAttempt == db.lastAttempt && d.attempts.Keys == db.attempts.Keys && d.leases.Keys == db.leases.Keys
    && (forall a | a in db.attempts ::
          && d.attempts[a].job == db.attempts[a].job && d.attempts[a].number == db.attempts[a].number
          && (db.attempts[a].state.IsTerminal() ==> d.attempts[a] == db.attempts[a])
          && (d.attempts[a].state.IsAdvancing() ==> db.attempts[a].state.IsAdvancing()))
    && (forall a | a in db.leases :: d.leases[a].job == db.leases[a].job && (db.leases[a].released ==> d.leases[a] == db.leases[a]))
  }

  /** The reservation is kept as it is or lost. */
  ghost predicate ReservationStays(db: Db, d: Db) {
    d.lastReservation == db.lastReservation && (d.reservation == db.reservation || d.reservation.None?)
  }

  /** The position of `j` in `d` is fresh, or it is the one it had while it waited. */
  ghost predicate SeqMoved(db: Db, d: Db, j: JobId)
    requires j in d.jobs && d.jobs[j].readySeq.Some?
  {
    || d.jobs[j].readySeq.value > db.readySeq
    || (j in db.jobs && db.jobs[j].readySeq == d.jobs[j].readySeq && (d.jobs[j].state.IsWaiting() ==> db.jobs[j].state.IsWaiting()))
  }

  ghost predicate ReadyMoves(db: Db, d: Db) {
    d.readySeq >= db.readySeq && forall j | j in d.jobs && d.jobs[j].readySeq.Some? :: SeqMoved(db, d, j)
  }

  /** A step that admits nothing. */
  ghost predicate Quiet(db: Db, d: Db) {
    EdgesLatch(db, d) && SkipsStay(db, d) && AttemptsSettle(db, d) && ReservationStays(db, d) && ReadyMoves(db, d)
  }

  lemma QuietTrans(a: Db, b: Db, c: Db)
    requires Quiet(a, b) && Quiet(b, c)
    ensures Quiet(a, c)
  {
    ReadyTrans(a, b, c);
    AttemptsTrans(a, b, c);
    assert EdgesLatch(a, c);
    assert SkipsStay(a, c);
  }

  lemma ReadyTrans(a: Db, b: Db, c: Db)
    requires ReadyMoves(a, b) && ReadyMoves(b, c)
    ensures ReadyMoves(a, c)
  {
    forall j | j in c.jobs && c.jobs[j].readySeq.Some? ensures SeqMoved(a, c, j) {
      assert SeqMoved(b, c, j);
      if j in b.jobs && b.jobs[j].readySeq.Some? {
        assert SeqMoved(a, b, j);
      }
    }
  }

  lemma AttemptsTrans(a: Db, b: Db, c: Db)
    requires AttemptsSettle(a, b) && AttemptsSettle(b, c)
    ensures AttemptsSettle(a, c)
  {
  }

  // -------------------------------------------------------------------------
  // Row updates are quiet
  // -------------------------------------------------------------------------

  lemma WithJobQuiet(db: Db, j: JobId, job: Job)
    requires j in db.jobs && !db.jobs[j].state.Skipped? && job.maxAttempts == db.jobs[j].maxAttempts
    requires job.readySeq.None? || (job.readySeq == db.jobs[j].readySeq && (job.state.IsWaiting() ==> db.jobs[j].state.IsWaiting()))
    ensures Quiet(db, WithJob(db, j, job))
  {
    var d := WithJob(db, j, job);
    forall i | i in d.jobs && d.jobs[i].readySeq.Some? ensures SeqMoved(db, d, i) {
    }
  }

  /** Positions are untouched when rows are. */
  lemma ReadySame(db: Db, d: Db)
    requires d.jobs == db.jobs && d.readySeq == db.readySeq
    ensures ReadyMoves(db, d)
  {
  }

  lemma DropQuiet(db: Db, j: JobId)
    ensures Quiet(db, DropReservation(db, j))
  {
    ReadySame(db, DropReservation(db, j));
  }

  /** One attempt, its lease and its job row move forward. */
  ghost predicate MovesForward(db: Db, d: Db, a: AttemptId) {
    && a in db.attempts && a in db.leases && !db.attempts[a].state.IsTerminal() && !db.leases[a].released
    && a in d.attempts && a in d.leases
    && var j := db.attempts[a].job;
       && j in db.jobs && j in d.jobs && !db.jobs[j].state.Skipped?
       && d == db.(attempts := db.attempts[a := d.attempts[a]], leases := db.leases[a := d.leases[a]], jobs := db.jobs[j := d.jobs[j]])
       && d.attempts[a].job == j && d.attempts[a].number == db.attempts[a].number && (d.attempts[a].state.IsAdvancing() ==> db.attempts[a].state.IsAdvancing())
       && d.leases[a].job == db.leases[a].job && d.jobs[j].maxAttempts == db.jobs[j].maxAttempts
       && (d.jobs[j].readySeq.None? || (d.jobs[j].readySeq == db.jobs[j].readySeq && !d.jobs[j].state.IsWaiting()))
  }

  lemma AttemptReady(db: Db, d: Db, a: AttemptId)
    requires MovesForward(db, d, a)
    ensures ReadyMoves(db, d)
  {
    forall i | i in d.jobs && d.jobs[i].readySeq.Some? ensures SeqMoved(db, d, i) {
    }
  }

  lemma AttemptQuiet(db: Db, d: Db, a: AttemptId)
    requires MovesForward(db, d, a)
    ensures Quiet(db, d)
  {
    AttemptReady(db, d, a);
  }

  lemma InsertQuiet(db: Db, params: SubmitParams)
    requires Core(db) && ParentsExist(db, params.dependencies)
    ensures Quiet(db, InsertJob(db, params))
  {
    hide AttemptSide, InsertJob, Collapse, ReadyOk;
    var d := InsertJob(db, params);
    InsertFrame(db, params);
    InsertEdges(db, d, params);
    InsertReadyMoves(db, d, params);
  }

  lemma InsertReadyMoves(db: Db, d: Db, params: SubmitParams)
    requires Inserted(db, d, params)
    ensures ReadyMoves(db, d)
  {
    forall i | i in d.jobs && d.jobs[i].readySeq.Some? ensures SeqMoved(db, d, i) {
    }
  }

  lemma SettleQuiet(db: Db, now: int)
    ensures Quiet(db, Settle(db, now))
  {
    var d := Settle(db, now);
    assert EdgesLatch(db, d) by {
      forall k | k in db.edges ensures k in d.edges && d.edges[k] == SettledEdge(db, k.0, k.1, now) {
      }
    }
    assert forall j | j in db.jobs :: d.jobs[j] == SettledJob(db, j);
    assert ReadyMoves(db, d) by {
      forall i | i in d.jobs && d.jobs[i].readySeq.Some? ensures SeqMoved(db, d, i) {
      }
    }
  }

  lemma AdvanceQuiet(db: Db, now: int)
    requires JobIdsOk(db)
    ensures Quiet(db, Advance(db, now))
  {
    SettleQuiet(db, now);
    var s := Settle(db, now);
    var needy := ReadySet(s, now);
    var r := Advance(db, now);
    AssignReadyFrame(s, needy, s.lastJob);
    assert Quiet(s, r) by {
      assert SkipsStay(s, r);
      forall i | i in r.jobs && r.jobs[i].readySeq.Some? ensures SeqMoved(s, r, i) {
      }
    }
    QuietTrans(db, s, r);
  }

  // -------------------------------------------------------------------------
  // Every step but a pass is quiet
  // -------------------------------------------------------------------------

  lemma LiveMoves(db: Db, d: Db, a: AttemptId, now: int)
    requires Inv(db, now) && a in db.attempts && !db.attempts[a].state.IsTerminal() && a in d.attempts && a in d.leases
    requires var j := db.attempts[a].job;
             && j in db.jobs && j in d.jobs
             && d == db.(attempts := db.attempts[a := d.attempts[a]], leases := db.leases[a := d.leases[a]], jobs := db.jobs[j := d.jobs[j]])
             && d.attempts[a].job == j && d.attempts[a].number == db.attempts[a].number && (d.attempts[a].state.IsAdvancing() ==> db.attempts[a].state.IsAdvancing())
             && d.leases[a].job == j && d.jobs[j].maxAttempts == db.jobs[j].maxAttempts
             && (d.jobs[j].readySeq.None? || (d.jobs[j].readySeq == db.jobs[j].readySeq && !d.jobs[j].state.IsWaiting()))
    ensures Quiet(db, d)
  {
    hide Core, Settled, Quiet;
    LiveFact(db, a, now);
    AttemptQuiet(db, d, a);
  }

  /** Closing an attempt and resolving the graph. */
  lemma CloseQuiet(db: Db, a: AttemptId, state: AttemptState, job: Job, now: int)
    requires Inv(db, now) && a in db.attempts && a in db.leases && !db.attempts[a].state.IsTerminal() && state.IsTerminal()
    requires db.attempts[a].job in db.jobs && job.maxAttempts == db.jobs[db.attempts[a].job].maxAttempts
    requires job.readySeq.None? || (job.readySeq == db.jobs[db.attempts[a].job].readySeq && !job.state.IsWaiting())
    ensures Quiet(db, Advance(Close(db, a, state, job), now))
  {
    hide Settled, Quiet, Advance, ReservationOk, AttemptSide;
    LiveFact(db, a, now);
    var d := Close(db, a, state, job);
    LiveMoves(db, d, a, now);
    assert JobIdsOk(d);
    AdvanceQuiet(d, now);
    QuietTrans(db, d, Advance(d, now));
  }

  lemma WithJobAdvanceQuiet(db: Db, j: JobId, job: Job, now: int)
    requires Core(db) && j in db.jobs && !db.jobs[j].state.Skipped? && job.maxAttempts == db.jobs[j].maxAttempts
    requires job.readySeq.None? || (job.readySeq == db.jobs[j].readySeq && (job.state.IsWaiting() ==> db.jobs[j].state.IsWaiting()))
    ensures Quiet(db, Advance(WithJob(db, j, job), now))
  {
    hide Quiet, Advance, AttemptSide;
    var d := WithJob(db, j, job);
    WithJobQuiet(db, j, job);
    AdvanceQuiet(d, now);
    QuietTrans(db, d, Advance(d, now));
  }

  lemma CancelQuiet(db: Db, j: JobId, force: bool, now: int)
    requires Inv(db, now) && CancelJob(db, j, force, now).Accepted?
    ensures Quiet(db, CancelJob(db, j, force, now).db)
  {
    hide Core, Settled, ReservationOk, Quiet, Advance;
    var r := CancelJob(db, j, force, now).db;
    if db.jobs[j].state.IsWaiting() {
      var dropped := DropReservation(db, j);
      DropQuiet(db, j);
      DropReservationOk(db, j, now);
      WithJobAdvanceQuiet(dropped, j, db.jobs[j].(state := JobState.Cancelled), now);
      QuietTrans(db, dropped, r);
    } else {
      var a := LiveAttempt(db, j).value;
      LiveFact(db, a, now);
      var flagged := WithAttempt(db, a, db.attempts[a].(cancelRequested := true));
      LiveMoves(db, flagged, a, now);
      if db.attempts[a].state.Prepared? {
        FlagInv(db, a, db.attempts[a].(cancelRequested := true), now);
        CloseQuiet(flagged, a, AttemptState.Cancelled, db.jobs[j].(state := JobState.Cancelled), now);
        QuietTrans(db, flagged, r);
      }
    }
  }

  /** A waiting job's row changes, reservation dropped or not. */
  lemma DroppedRowQuiet(db: Db, j: JobId, job: Job)
    requires j in db.jobs && db.jobs[j].state.IsWaiting() && job.maxAttempts == db.jobs[j].maxAttempts
    requires job.readySeq == db.jobs[j].readySeq
    ensures Quiet(db, WithJob(DropReservation(db, j), j, job)) && Quiet(db, WithJob(db, j, job))
  {
    hide Quiet;
    var dropped := DropReservation(db, j);
    DropQuiet(db, j);
    WithJobQuiet(dropped, j, job);
    WithJobQuiet(db, j, job);
    QuietTrans(db, dropped, WithJob(dropped, j, job));
  }

  lemma QuietRefl(db: Db, d: Db)
    requires d == db.(paused := d.paused)
    ensures Quiet(db, d)
  {
    ReadySame(db, d);
  }

  lemma LimitQuiet(db: Db, j: JobId, limit: nat, now: int)
    requires Inv(db, now) && SetLimit(db, j, limit).Accepted?
    ensures Quiet(db, SetLimit(db, j, limit).db)
  {
    hide Core, Settled, ReservationOk, Quiet;
    if db.jobs[j].limit == limit {
      QuietRefl(db, db);
    } else if db.jobs[j].state.IsWaiting() {
      DroppedRowQuiet(db, j, db.jobs[j].(limit := limit));
    } else {
      var a := LiveAttempt(db, j).value;
      LiveFact(db, a, now);
      LiveMoves(db, WithLimit(db, j, a, limit), a, now);
    }
  }

  lemma RecoverQuiet(db: Db, j: JobId, number: nat, how: ResolveAs, alive: bool, now: int)
    requires Inv(db, now) && ResolveRecovery(db, j, number, how, alive, now).Accepted?
    ensures Quiet(db, ResolveRecovery(db, j, number, how, alive, now).db)
  {
    hide Core, Settled, ReservationOk, Quiet, Advance;
    var a := ByNumber(db, j, number, db.lastAttempt).value;
    match how
    case AsLost => CloseQuiet(db, a, AttemptState.Lost, db.jobs[j].(state := JobState.Lost), now);
    case AsCancelled => CloseQuiet(db, a, AttemptState.Cancelled, db.jobs[j].(state := JobState.Cancelled), now);
  }

  lemma SubmitQuiet(db: Db, params: SubmitParams, now: int)
    requires Inv(db, now) && ParentsExist(db, params.dependencies)
    ensures Quiet(db, Advance(InsertJob(db, params), now))
  {
    hide Settled, ReservationOk, Quiet, Advance, AttemptSide, InsertJob;
    var d := InsertJob(db, params);
    InsertFrame(db, params);
    InsertQuiet(db, params);
    assert JobIdsOk(d);
    AdvanceQuiet(d, now);
    QuietTrans(db, d, Advance(d, now));
  }

  lemma MutationQuiet(db: Db, op: Op, now: int)
    requires Inv(db, now) && Apply(db, op, now).Accepted?
    ensures Quiet(db, Apply(db, op, now).db)
  {
    hide Core, Settled, ReservationOk, Quiet, Advance;
    match op
    case Submit(params) => SubmitQuiet(db, params, now);
    case Cancel(j, force) => CancelQuiet(db, j, force, now);
    case Yield(j, hold) =>
      var a := LiveAttempt(db, j).value;
      LiveFact(db, a, now);
      if db.attempts[a].yieldRequested {
        QuietRefl(db, db);
      } else {
        LiveMoves(db, WithAttempt(db, a, db.attempts[a].(yieldRequested := true, yieldHold := hold)), a, now);
      }
    case Hold(j) => DroppedRowQuiet(db, j, db.jobs[j].(state := Held));
    case Release(j) => DroppedRowQuiet(db, j, db.jobs[j].(state := Queued));
    case Retry(j) =>
      WithJobAdvanceQuiet(db, j, db.jobs[j].(state := Queued, retryNotBefore := None, readySeq := None), now);
    case SetMaxParallelRuns(j, limit) => LimitQuiet(db, j, limit, now);
    case SetPriority(j, priority) =>
      if db.jobs[j].priority == priority {
        QuietRefl(db, db);
      } else {
        DroppedRowQuiet(db, j, db.jobs[j].(priority := priority));
      }
    case SetTimeLimit(j, timeLimit) =>
      if db.jobs[j].timeLimit == timeLimit {
        QuietRefl(db, db);
      } else {
        WithJobQuiet(db, j, db.jobs[j].(timeLimit := timeLimit, timeLimitSetAt := Some(now)));
      }
    case RecoverResolve(j, number, how, alive) => RecoverQuiet(db, j, number, how, alive, now);
    case Pause => QuietRefl(db, db.(paused := true));
    case Unpause => QuietRefl(db, db.(paused := false));
  }

  lemma LiveStepQuiet(db: Db, a: AttemptId, state: AttemptState, jobState: JobState, now: int)
    requires Inv(db, now) && a in db.attempts && !db.attempts[a].state.IsTerminal() && db.attempts[a].job in db.jobs
    requires StatesAgree(jobState, state) && (state.IsAdvancing() ==> db.attempts[a].state.IsAdvancing())
    ensures Quiet(db, WithLive(db, a, state, jobState))
  {
    hide Core, Settled, ReservationOk, Quiet;
    LiveFact(db, a, now);
    LiveMoves(db, WithLive(db, a, state, jobState), a, now);
  }

  lemma StepQuiet(db: Db, step: Step, now: int)
    requires Inv(db, now) && Enabled(db, step) && !step.SchedulePass?
    ensures Quiet(db, Next(db, step, now))
  {
    hide Settled, ReservationOk, Quiet, Advance, AttemptSide, Apply, Finalize, LatchesOk, PrerequisitesOk, RowsOk;
    match step
    case Mutate(op) =>
      if Apply(db, op, now).Accepted? {
        MutationQuiet(db, op, now);
      } else {
        QuietRefl(db, db);
      }
    case MarkAuthorized(a) => LiveStepQuiet(db, a, Authorized, Starting, now);
    case MarkRunning(a) => LiveStepQuiet(db, a, AttemptState.Running, JobState.Running, now);
    case MarkOrphaned(a) => LiveStepQuiet(db, a, Orphaned, NeedsAttention, now);
    case Quarantine(a) => LiveStepQuiet(db, a, Quarantined, NeedsAttention, now);
    case ObserveYield(a) =>
      LiveFact(db, a, now);
      LiveMoves(db, WithAttempt(db, a, db.attempts[a].(yieldDelivered := true)), a, now);
    case Finish(a, state) => FinalizeQuiet(db, a, state, now);
    case ResolveGraph => AdvanceQuiet(db, now);
  }

  lemma FinalizeQuiet(db: Db, a: AttemptId, state: AttemptState, now: int)
    requires Inv(db, now) && Enabled(db, Finish(a, state))
    ensures Quiet(db, Finalize(db, a, state, now))
  {
    hide Core, Settled, ReservationOk, Quiet, Advance;
    LiveFact(db, a, now);
    var job := db.jobs[db.attempts[a].job];
    CloseQuiet(db, a, state, JobAfter(job, db.attempts[a], state, Used(db, a, state), now), now);
  }

  // -------------------------------------------------------------------------
  // What a pass moves
  // -------------------------------------------------------------------------

  /** The attempt and lease a start creates. */
  ghost predicate StartRow(db: Db, d: Db, id: AttemptId, j: JobId) {
    && id in d.attempts && id in d.leases && j in db.jobs
    && d.attempts[id].job == j && d.attempts[id].state.Prepared?
    && d.leases[id] == Lease(j, db.jobs[j].limit, false)
  }

  /** Rows of attempts up to the old high-water mark are untouched. */
  ghost predicate OldRows(db: Db, d: Db, upto: AttemptId) {
    && (forall a | a <= upto :: a in d.attempts <==> a in db.attempts)
    && (forall a | a <= upto :: a in d.leases <==> a in db.leases)
    && (forall a | a <= upto && a in db.attempts :: d.attempts[a] == db.attempts[a])
    && (forall a | a <= upto && a in db.leases :: d.leases[a] == db.leases[a])
  }

  lemma {:induction false} StartAllOld(db: Db, starts: seq<Start>)
    requires Startable(db, starts)
    ensures OldRows(db, StartAll(db, starts), db.lastAttempt)
    ensures forall a | a > db.lastAttempt + |starts| :: a in StartAll(db, starts).leases <==> a in db.leases
    decreases |starts|
  {
    if starts != [] {
      assert starts[0] in starts;
      StartAllOld(StartJob(db, starts[0].job), starts[1..]);
    }
  }

  lemma {:induction false} StartAllNew(db: Db, starts: seq<Start>, k: nat)
    requires Startable(db, starts) && Distinct(starts) && k < |starts|
    ensures StartRow(db, StartAll(db, starts), db.lastAttempt + 1 + k, starts[k].job)
    decreases |starts|
  {
    assert starts[0] in starts && starts[k] in starts;
    var one := StartJob(db, starts[0].job);
    if k == 0 {
      StartAllOld(one, starts[1..]);
      assert OldRows(one, StartAll(db, starts), db.lastAttempt + 1);
      assert db.lastAttempt + 1 in one.attempts && db.lastAttempt + 1 in one.leases;
    } else {
      forall i, j | 0 <= i < j < |starts[1..]| ensures starts[1..][i].job != starts[1..][j].job {
        assert starts[1..][i] == starts[i + 1] && starts[1..][j] == starts[j + 1];
      }
      StartAllNew(one, starts[1..], k - 1);
      assert starts[1..][k - 1] == starts[k] && starts[k].job != starts[0].job;
    }
  }

  /** A pass latches nothing, moves no position and revives no skipped job. */
  lemma PassMoves(db: Db, now: int)
    requires Core(db)
    ensures var d := Pass(db, now);
            EdgesLatch(db, d) && SkipsStay(db, d) && ReadyMoves(db, d) && d.readySeq == db.readySeq && d.edges == db.edges
  {
    hide Core;
    if !db.paused {
      PlanFacts(db, now);
      var plan := PassPlan(db, now);
      StartAllFrame(db, plan.starts);
      var d := Pass(db, now);
      StartAllKeepsMax(db, plan.starts);
      forall j | j in d.jobs && d.jobs[j].readySeq.Some? ensures SeqMoved(db, d, j) {
        assert j in StartedJobs(plan.starts) || d.jobs[j] == db.jobs[j];
      }
    } else {
      ReadySame(db, db);
    }
  }

  lemma {:induction false} StartAllKeepsMax(db: Db, starts: seq<Start>)
    requires Startable(db, starts)
    ensures forall j | j in db.jobs ::
              j in StartAll(db, starts).jobs && StartAll(db, starts).jobs[j].maxAttempts == db.jobs[j].maxAttempts
    decreases |starts|
  {
    if starts != [] {
      assert starts[0] in starts;
      StartAllKeepsMax(StartJob(db, starts[0].job), starts[1..]);
    }
  }
}
