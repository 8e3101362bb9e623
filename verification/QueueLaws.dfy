/**
 What each transaction does to the rows it is about, read off the tables before
 and after.
 */
module QueueLaws {
  import opened Domain
  import opened Scheduler
  import opened PassProperties
  import opened Tables
  import opened Dependencies
  import opened Submissions
  import opened Transactions
  import opened QueueInvariant
  import opened QueueSteps
  import opened QueueMotion
  import opened QueueRuns

  // -------------------------------------------------------------------------
  // What resolution leaves of a row
  // -------------------------------------------------------------------------

  lemma AdvanceRow(db: Db, now: int, j: JobId)
    requires j in db.jobs
    ensures var r := Advance(db, now);
            && j in r.jobs && r.jobs[j] == db.jobs[j].(state := r.jobs[j].state, readySeq := r.jobs[j].readySeq)
            && (r.jobs[j].state == db.jobs[j].state || (db.jobs[j].state.IsWaiting() && r.jobs[j].state == Skipped))
            && (!db.jobs[j].state.IsWaiting() ==> r.jobs[j] == db.jobs[j])
  {
    hide NeedsReady;
    var s := Settle(db, now);
    AssignReadyFrame(s, ReadySet(s, now), s.lastJob);
    if !db.jobs[j].state.IsWaiting() {
      NotWaitingNotNeedy(s, j, now);
    }
  }

  lemma NotWaitingNotNeedy(s: Db, j: JobId, now: int)
    requires j in s.jobs && !s.jobs[j].state.IsWaiting()
    ensures !NeedsReady(s, j, now)
  {
  }

  /** A job all of whose edges are satisfied is not skipped. */
  lemma AdvanceKeepsState(db: Db, now: int, j: JobId)
    requires j in db.jobs && forall k | k in db.edges && k.1 == j :: IsSatisfied(db.edges[k])
    ensures j in Advance(db, now).jobs && Advance(db, now).jobs[j].state == db.jobs[j].state
  {
    hide Advance;
    assert !WillSkip(db, j);
    AdvanceVerdicts(db, now, j);
  }

  lemma LiveEdges(db: Db, a: AttemptId, now: int)
    requires Inv(db, now) && a in db.attempts && !db.attempts[a].state.IsTerminal()
    ensures forall k | k in db.edges && k.1 == db.attempts[a].job :: IsSatisfied(db.edges[k])
  {
    hide Settled, ReservationOk, AttemptSide, IsSatisfied;
    LiveFact(db, a, now);
  }

  // -------------------------------------------------------------------------
  // The end of an attempt
  // -------------------------------------------------------------------------

  /** The job row that goes with an ended attempt, whatever its budget. */
  ghost predicate RowFollows(job: Job, t: Attempt, state: AttemptState, now: int, after: Job) {
    && (state == AttemptState.Succeeded ==> after.state == JobState.Succeeded)
    && (state == AttemptState.Cancelled ==> after.state == JobState.Cancelled)
    // A delivered yield may have been honoured: the job is held, not lost.
    && (state == AttemptState.Lost ==> after.state == if t.yieldDelivered && !t.cancelRequested then Held else JobState.Lost)
    && (state == AttemptState.Yielded ==> after.state == if t.cancelRequested then JobState.Cancelled else if t.yieldHold then Held else Queued)
    && (state == AttemptState.Failed ==> after.state == Queued || after.state == JobState.Failed)
    && (state == AttemptState.Failed && t.cancelRequested ==> after.state == JobState.Failed)
    // Only a failure is retried with a delay, and the delay saturates.
    && (after.state == Queued || after.state == Held ==>
          after.retryNotBefore == if state != AttemptState.Failed || job.retryDelay == 0 then None
                                  else if now + job.retryDelay <= I64_MAX then Some(now + job.retryDelay) else Some(I64_MAX))
  }

  /** Ending an attempt writes its state, releases its lease and moves its job accordingly; no other
      attempt or lease is touched. */
  lemma FinishLaw(db: Db, a: AttemptId, state: AttemptState, now: int)
    requires Inv(db, now) && Enabled(db, Finish(a, state))
    ensures var d, j := Finalize(db, a, state, now), db.attempts[a].job;
            && d.attempts == db.attempts[a := db.attempts[a].(state := state)]
            && d.leases == db.leases[a := db.leases[a].(released := true)]
            && j in d.jobs && RowFollows(db.jobs[j], db.attempts[a], state, now, d.jobs[j])
  {
    hide Settled, ReservationOk, Core, Advance, Used, JobAfter, RowFollows, IsSatisfied;
    var j := db.attempts[a].job;
    LiveFact(db, a, now);
    LiveEdges(db, a, now);
    var after := JobAfter(db.jobs[j], db.attempts[a], state, Used(db, a, state), now);
    var mid := Close(db, a, state, after);
    AdvanceFrame(mid, now);
    AdvanceRow(mid, now, j);
    AdvanceKeepsState(mid, now, j);
    JobAfterFollows(db.jobs[j], db.attempts[a], state, Used(db, a, state), now, Advance(mid, now).jobs[j]);
  }

  lemma JobAfterFollows(job: Job, t: Attempt, state: AttemptState, used: int, now: int, after: Job)
    requires state.IsTerminal() && !job.state.IsTerminal()
    requires var row := JobAfter(job, t, state, used, now); after.state == row.state && after.retryNotBefore == row.retryNotBefore
    ensures RowFollows(job, t, state, now, after)
  {
  }

  /** Attempts of a job that ended otherwise than by yielding. */
  function Spent(db: Db, j: JobId): set<AttemptId> {
    set a | a in db.attempts && db.attempts[a].job == j && db.attempts[a].state.IsTerminal() && db.attempts[a].state != AttemptState.Yielded
  }

  /** With all its attempts ended, what a job has spent and what it yielded make up its attempts. */
  lemma SpentCounts(db: Db, j: JobId)
    requires forall a | a in db.attempts && db.attempts[a].job == j :: db.attempts[a].state.IsTerminal()
    ensures |Spent(db, j)| == |AttemptsOf(db, j)| - YieldCount(db, j)
  {
    var yielded := AttemptsIn(db, j, AttemptState.Yielded);
    assert Spent(db, j) !! yielded;
    assert AttemptsOf(db, j) == Spent(db, j) + yielded;
  }

  lemma UsedIsSpent(db: Db, a: AttemptId, state: AttemptState)
    requires AttemptSide(db) && a in db.attempts && !db.attempts[a].state.IsTerminal() && state.IsTerminal()
    requires db.attempts[a].job in db.jobs
    ensures Used(db, a, state) == |Spent(WithAttempt(db, a, db.attempts[a].(state := state)), db.attempts[a].job)|
  {
    hide AttemptsOk, ActiveOk, YieldCount, Spent, LeaseIdsOk;
    var j := db.attempts[a].job;
    var d := WithAttempt(db, a, db.attempts[a].(state := state));
    forall b | b in d.attempts && d.attempts[b].job == j ensures d.attempts[b].state.IsTerminal() {
    }
    SpentCounts(d, j);
    assert AttemptsOf(d, j) == AttemptsOf(db, j);
  }

  /** A failure without a cancel leaves the job waiting exactly while its attempts that did not yield
      number fewer than it may have; otherwise the job has failed. */
  lemma FailureLaw(db: Db, a: AttemptId, now: int)
    requires Inv(db, now) && Enabled(db, Finish(a, AttemptState.Failed)) && !db.attempts[a].cancelRequested
    ensures var d, j := Finalize(db, a, AttemptState.Failed, now), db.attempts[a].job;
            && j in d.jobs
            && (d.jobs[j].state == Queued <==> |Spent(d, j)| < d.jobs[j].maxAttempts)
            && (d.jobs[j].state != Queued ==> d.jobs[j].state == JobState.Failed)
  {
    hide Settled, ReservationOk, JobSide, AttemptSide, Advance, Used, Spent;
    var j := db.attempts[a].job;
    LiveFact(db, a, now);
    LiveEdges(db, a, now);
    UsedIsSpent(db, a, AttemptState.Failed);
    var after := JobAfter(db.jobs[j], db.attempts[a], AttemptState.Failed, Used(db, a, AttemptState.Failed), now);
    var mid := Close(db, a, AttemptState.Failed, after);
    AdvanceFrame(mid, now);
    AdvanceRow(mid, now, j);
    AdvanceKeepsState(mid, now, j);
    SpentSame(Advance(mid, now), WithAttempt(db, a, db.attempts[a].(state := AttemptState.Failed)), j);
  }

  lemma SpentSame(db: Db, d: Db, j: JobId)
    requires d.attempts == db.attempts
    ensures Spent(d, j) == Spent(db, j)
  {
  }

  // -------------------------------------------------------------------------
  // Client mutations
  // -------------------------------------------------------------------------

  /** A submitted job carries what was asked for, and depends on exactly the declared parents, on
      success where some declaration asks for it. */
  lemma SubmitLaw(db: Db, params: SubmitParams, now: int)
    requires Inv(db, now) && SubmitJob(db, params, now).Accepted?
    ensures var d := SubmitJob(db, params, now).db;
            var id := db.lastJob + 1;
            && d.lastJob == id && id !in db.jobs && id in d.jobs && (d.jobs[id].state == Queued || d.jobs[id].state == Skipped)
            && d.jobs[id].limit == params.limit && d.jobs[id].priority == params.priority && d.jobs[id].maxAttempts == params.maxAttempts
            && d.jobs[id].retryDelay == params.retryDelay && d.jobs[id].yieldable == params.yieldable
            && d.jobs[id].timeLimit == params.timeLimit && d.jobs[id].attemptCount == 0
            && (forall p: JobId :: (p, id) in d.edges <==> exists dep :: dep in params.dependencies && dep.job == p)
            && (forall p: JobId | (p, id) in d.edges :: d.edges[(p, id)].condition == OnSuccess <==> DependencySpec(p, OnSuccess) in params.dependencies)
  {
    hide Settled, ReservationOk, AttemptSide, Advance, InsertJob, Collapse, ParentsExist;
    var id, mid := db.lastJob + 1, InsertJob(db, params);
    InsertedRow(db, params);
    InsertedParents(db, params);
    AdvanceFrame(mid, now);
    AdvanceRow(mid, now, id);
    AdvanceEdges(mid, now);
  }

  lemma InsertedRow(db: Db, params: SubmitParams)
    requires JobIdsOk(db)
    ensures var d, id := InsertJob(db, params), db.lastJob + 1;
            && d.lastJob == id && id !in db.jobs && id in d.jobs
            && d.jobs[id] == Job(Queued, params.limit, params.priority, params.maxAttempts, params.retryDelay, None, d.jobs[id].readySeq, 0,
                                 params.yieldable, params.timeLimit, None)
  {
    hide Collapse, NewEdges;
  }

  lemma InsertedParents(db: Db, params: SubmitParams)
    requires JobIdsOk(db) && EdgesOk(db)
    ensures var d, id := InsertJob(db, params), db.lastJob + 1;
            && (forall p: JobId :: (p, id) in d.edges <==> exists dep :: dep in params.dependencies && dep.job == p)
            && (forall p: JobId | (p, id) in d.edges :: d.edges[(p, id)].condition == OnSuccess <==> DependencySpec(p, OnSuccess) in params.dependencies)
  {
    hide Collapse, NewEdges;
    var id, collapsed := db.lastJob + 1, Collapse(params.dependencies);
    CollapseMeaning(params.dependencies);
    assert forall p: JobId :: (p, id) !in db.edges;
    NewEdgesFacts(db.edges, collapsed, id);
  }

  lemma NewEdgesFacts(edges: map<(JobId, JobId), Edge>, collapsed: map<int, Condition>, id: JobId)
    requires forall p: JobId :: (p, id) !in edges
    ensures forall p: JobId :: (p, id) in edges + NewEdges(collapsed, id) <==> p in collapsed
    ensures forall p: JobId | p in collapsed :: (edges + NewEdges(collapsed, id))[(p, id)].condition == collapsed[p]
  {
    forall p: JobId ensures (p, id) in NewEdges(collapsed, id) <==> p in collapsed {
    }
  }

  lemma AdvanceEdges(db: Db, now: int)
    ensures Advance(db, now).edges.Keys == db.edges.Keys
    ensures forall k | k in db.edges :: Advance(db, now).edges[k].condition == db.edges[k].condition
  {
    var s := Settle(db, now);
    AssignReadyFrame(s, ReadySet(s, now), s.lastJob);
  }

  /** A cancel ends a waiting or merely prepared job at once and otherwise marks the live attempt; a
      quarantined attempt and a finished job refuse it. */
  lemma CancelLaw(db: Db, j: JobId, force: bool, now: int)
    requires Inv(db, now) && j in db.jobs
    ensures db.jobs[j].state.IsWaiting() ==>
              var r := CancelJob(db, j, force, now);
              r.Accepted? && j in r.db.jobs && r.db.jobs[j].state == JobState.Cancelled
    ensures forall a | IsLiveOf(db, a, j) ::
              var r := CancelJob(db, j, force, now);
              match db.attempts[a].state
              case Prepared => && r.Accepted? && a in r.db.attempts && r.db.attempts[a].state == AttemptState.Cancelled
                               && a in r.db.leases && r.db.leases[a].released && j in r.db.jobs && r.db.jobs[j].state == JobState.Cancelled
              case Quarantined => r.Rejected?
              case _ => r == Accepted(db.(attempts := db.attempts[a := db.attempts[a].(cancelRequested := true)]))
    ensures db.jobs[j].state.IsTerminal() ==> CancelJob(db, j, force, now).Rejected?
  {
    hide Settled, ReservationOk, Core, Advance;
    var job := db.jobs[j];
    if job.state.IsWaiting() {
      AdvanceRow(WithJob(DropReservation(db, j), j, job.(state := JobState.Cancelled)), now, j);
    }
    forall a | IsLiveOf(db, a, j)
      ensures var r := CancelJob(db, j, force, now);
              match db.attempts[a].state
              case Prepared => && r.Accepted? && a in r.db.attempts && r.db.attempts[a].state == AttemptState.Cancelled
                               && a in r.db.leases && r.db.leases[a].released && j in r.db.jobs && r.db.jobs[j].state == JobState.Cancelled
              case Quarantined => r.Rejected?
              case _ => r == Accepted(db.(attempts := db.attempts[a := db.attempts[a].(cancelRequested := true)]))
    {
      LiveFact(db, a, now);
      LiveIsLatest(db, a, j, now);
      var flagged := WithAttempt(db, a, db.attempts[a].(cancelRequested := true));
      var mid := Close(flagged, a, AttemptState.Cancelled, job.(state := JobState.Cancelled));
      AdvanceFrame(mid, now);
      AdvanceRow(mid, now, j);
    }
  }

  /** The lookup of a job's live attempt finds it. */
  lemma LiveIsLatest(db: Db, a: AttemptId, j: JobId, now: int)
    requires Inv(db, now) && IsLiveOf(db, a, j)
    ensures LiveAttempt(db, j) == Some(a)
  {
    hide Settled, ReservationOk, JobSide, AttemptsOk, ActiveOk, CountsOk;
    assert 1 <= a <= db.lastAttempt;
  }

  /** A resolve is for orphaned and quarantined attempts whose known group is not alive; it ends the
      attempt, the lease and the job as asked. */
  lemma ResolveLaw(db: Db, j: JobId, number: nat, how: ResolveAs, stillAlive: bool, now: int)
    requires Inv(db, now)
    ensures var r := ResolveRecovery(db, j, number, how, stillAlive, now);
            && (stillAlive ==> r.Rejected?)
            && (r.Accepted? ==>
                  exists a :: && a in db.attempts && db.attempts[a].job == j && db.attempts[a].number == number
                              && (db.attempts[a].state == Orphaned || db.attempts[a].state == Quarantined)
                              && a in r.db.attempts && r.db.attempts[a].state == (if how.AsLost? then AttemptState.Lost else AttemptState.Cancelled)
                              && a in r.db.leases && r.db.leases[a].released
                              && j in r.db.jobs && r.db.jobs[j].state == if how.AsLost? then JobState.Lost else JobState.Cancelled)
  {
    hide Settled, ReservationOk, Core, Advance;
    var r := ResolveRecovery(db, j, number, how, stillAlive, now);
    if r.Accepted? {
      var a := ByNumber(db, j, number, db.lastAttempt).value;
      NumberFound(db, j, number, db.lastAttempt);
      var state := if how.AsLost? then AttemptState.Lost else AttemptState.Cancelled;
      var job := db.jobs[j].(state := if how.AsLost? then JobState.Lost else JobState.Cancelled);
      var mid := Close(db, a, state, job);
      AdvanceFrame(mid, now);
      AdvanceRow(mid, now, j);
      assert a in r.db.attempts && r.db.attempts[a].state == state;
    }
  }

  lemma {:induction false} NumberFound(db: Db, j: JobId, number: nat, n: AttemptId)
    ensures var r := ByNumber(db, j, number, n); r.Some? ==> db.attempts[r.value].number == number
  {
    if n != 0 {
      NumberFound(db, j, number, n - 1);
    }
  }

  /** A yield is accepted for a running yieldable job without a cancel; the first one marks the live
      attempt with the request and its hold, and nothing else. */
  lemma YieldLaw(db: Db, j: JobId, hold: bool, now: int)
    requires Inv(db, now) && YieldJob(db, j, hold, now).Accepted?
    ensures j in db.jobs && db.jobs[j].yieldable && db.jobs[j].state == JobState.Running
    ensures exists a :: && IsLiveOf(db, a, j) && db.attempts[a].state == AttemptState.Running && !db.attempts[a].cancelRequested
                        && YieldJob(db, j, hold, now).db ==
                           if db.attempts[a].yieldRequested then db
                           else db.(attempts := db.attempts[a := db.attempts[a].(yieldRequested := true, yieldHold := hold)])
  {
    hide Inv, SomeoneAhead;
    var a := LiveAttempt(db, j).value;
    assert IsLiveOf(db, a, j);
  }

  /** A release undoes a hold: the job's row is what it was, and only a reservation for it is lost. */
  lemma ReleaseUndoesHold(db: Db, j: JobId)
    requires HoldJob(db, j).Accepted?
    ensures HoldJob(db, j).db.jobs[j].state == Held
    ensures ReleaseJob(HoldJob(db, j).db, j).Accepted?
    ensures var d := ReleaseJob(HoldJob(db, j).db, j).db;
            d == db.(reservation := d.reservation)
            && d.reservation == if db.reservation.Some? && db.reservation.value.job == j then None else db.reservation
  {
    assert db.jobs[j := db.jobs[j]] == db.jobs;
  }

  /** A manual retry is for failed and lost jobs, which wait again without a delay. */
  lemma RetryLaw(db: Db, j: JobId, now: int)
    requires Inv(db, now)
    ensures RetryJob(db, j, now).Accepted? <==> j in db.jobs && (db.jobs[j].state == JobState.Failed || db.jobs[j].state == JobState.Lost)
    ensures RetryJob(db, j, now).Accepted? ==>
              var d := RetryJob(db, j, now).db;
              j in d.jobs && d.jobs[j].state == Queued && d.jobs[j].retryNotBefore == None && d.jobs[j].attemptCount == db.jobs[j].attemptCount
  {
    hide Settled, ReservationOk, AttemptSide, Advance, IsSatisfied;
    if RetryJob(db, j, now).Accepted? {
      var mid := WithJob(db, j, db.jobs[j].(state := Queued, retryNotBefore := None, readySeq := None));
      AdvanceRow(mid, now, j);
      AdvanceKeepsState(mid, now, j);
    }
  }

  /** A reservation's window is open exactly while it is not pinned and some initial blocker still makes
      progress under its lease. */
  lemma FrontierMeaning(db: Db, r: Reservation)
    ensures BackfillFrontier(db, r) ==
            if r.cutoff != 0 then Frozen(r.cutoff)
            else if exists a | a in r.blockers ::
                      && a in db.leases && !db.leases[a].released && a in db.attempts
                      && (db.attempts[a].state == Prepared || db.attempts[a].state == Authorized || db.attempts[a].state == AttemptState.Running)
            then OpenWindow
            else FreezePending(db.readySeq)
  {
    if AnyBlockersAdvancing(db, r.blockers) {
      var a :| a in r.blockers && BlockerAdvancing(db, a);
      assert a in db.leases && !db.leases[a].released;
    }
  }
}
