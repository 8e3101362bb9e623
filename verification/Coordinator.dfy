/**
 The coordinator: the scheduling pass, the end of an attempt, and keyed client
 mutations, each one transaction on the stored tables. Each method is proved
 against the function of the same transaction on `Db`. Where the source checks
 something it expects to hold, the method asserts it.
 */
module Coordination {
  import opened Domain
  import opened Scheduler
  import opened PassProperties
  import opened Tables
  import opened Dependencies
  import opened Submissions
  import opened Transactions
  import opened QueueInvariant
  import opened QueueSteps
  import opened Database
  import opened Idempotency

  class Coordinator {
    const db: Store
    var operations: map<Key, Stored>

    constructor (db: Store)
      ensures this.db == db && operations == map[]
    {
      this.db := db;
      operations := map[];
    }

    // -----------------------------------------------------------------------
    // The scheduling pass
    // -----------------------------------------------------------------------

    /** Create attempt and lease for every start. The revalidation of the source,
        that each job is still queued, holds. */
    method StartBatch(starts: seq<Start>) returns (batch: map<JobId, AttemptId>)
      requires Distinct(starts)
      requires forall s | s in starts :: s.job in db.jobs && db.jobs[s.job].state.Queued?
      modifies db`lastAttempt, db`attempts, db`leases, db`jobs
      ensures Startable(old(db.Value()), starts) && db.Value() == StartAll(old(db.Value()), starts)
      ensures batch.Keys == StartedJobs(starts)
      ensures forall k | 0 <= k < |starts| :: starts[k].job in batch && batch[starts[k].job] == old(db.lastAttempt) + 1 + k
    {
      hide StartAll, StartJob, Distinct, StartedJobs;
      ghost var before := db.Value();
      batch := map[];
      var i := 0;
      NothingStarted(before);
      while i < |starts|
        invariant i <= |starts|
        invariant Startable(before, starts[..i]) && db.Value() == StartAll(before, starts[..i])
        invariant db.lastAttempt == before.lastAttempt + i
        invariant batch.Keys == StartedJobs(starts[..i])
        invariant forall k | 0 <= k < i :: starts[k].job in batch && batch[starts[k].job] == before.lastAttempt + 1 + k
      {
        var j := starts[i].job;
        StillQueued(before, starts, i);
        StartedOneMore(starts[..i], starts[i]);
        assert starts[..i + 1] == starts[..i] + [starts[i]];
        StartAllAppend(before, starts[..i], starts[i]);
        assert db.jobs[j].state.Queued?;
        var id := db.CreateAttemptWithLease(j);
        batch := batch[j := id];
        i := i + 1;
      }
      assert starts[..|starts|] == starts;
    }

    method RecordAll(jobs: set<JobId>)
      requires db.reservation.Some?
      modifies db`reservation
      ensures db.reservation == Some(old(db.reservation).value.(consumed := old(db.reservation).value.consumed + jobs))
    {
      var left := jobs;
      while left != {}
        invariant left <= jobs && db.reservation.Some?
        invariant db.reservation.value == old(db.reservation).value.(consumed := old(db.reservation).value.consumed + (jobs - left))
        decreases left
      {
        var j :| j in left;
        db.RecordBackfill(j);
        left := left - {j};
      }
      assert jobs - left == jobs;
    }

    /** Charge every bypass. The reservation it names is the current one. */
    method RecordBypasses(starts: seq<Start>)
      requires forall s | s in starts && s.bypasses.Some? :: db.reservation.Some? && s.bypasses.value == db.reservation.value.job
      modifies db`reservation
      ensures db.reservation == Charged(old(db.reservation), starts)
    {
      hide Charged;
      var i := 0;
      NothingCharged(db.reservation);
      while i < |starts|
        invariant i <= |starts|
        invariant db.reservation == Charged(old(db.reservation), starts[..i])
      {
        var s := starts[i];
        assert s in starts && starts[..i + 1] == starts[..i] + [s];
        ChargedOneMore(old(db.reservation), starts[..i], s);
        if s.bypasses.Some? {
          assert db.reservation.Some? && db.reservation.value.job == s.bypasses.value;
          db.RecordBackfill(s.job);
        }
        i := i + 1;
      }
      assert starts[..|starts|] == starts;
    }

    /** Resolve, freeze or create the reservation as planned. */
    method CommitReservation(outcome: PassOutcome, freeze: Option<nat>, held: set<AttemptId>, batch: map<JobId, AttemptId>)
      requires outcome.satisfy || outcome.invalidate.Some? || freeze.Some? ==> db.reservation.Some?
      requires !(outcome.satisfy && outcome.invalidate.Some?)
      requires outcome.create.Some? ==> db.reservation.None? || outcome.satisfy || outcome.invalidate.Some?
      requires forall s | s in outcome.starts :: s.job in batch
      modifies db`reservation, db`lastReservation
      ensures db.lastReservation == old(db.lastReservation) + if outcome.create.Some? then 1 else 0
      ensures db.reservation ==
              if outcome.create.Some? then
                var n := outcome.create.value;
                Some(Reservation(db.lastReservation, n.job, UNFROZEN, BlockerIds(held, outcome.starts, n.job, batch), n.initialConsumed))
              else Kept(old(db.Value()), outcome, freeze)
    {
      if freeze.Some? && !outcome.satisfy && outcome.invalidate.None? {
        db.FreezeReservationCutoff(freeze.value);
      }
      if outcome.satisfy {
        assert db.reservation.Some?;
        db.ResolveReservation();
      }
      if outcome.invalidate.Some? {
        assert db.reservation.Some?;
        db.ResolveReservation();
      }
      if outcome.create.Some? {
        var n := outcome.create.value;
        db.CreateReservation(n.job, BlockerIds(held, outcome.starts, n.job, batch));
        RecordAll(n.initialConsumed);
        assert {} + n.initialConsumed == n.initialConsumed;
      }
    }

    /** One pass: plan on a snapshot, commit in one transaction. */
    method Schedule(now: int)
      requires Inv(db.Value(), now)
      modifies db
      ensures db.Value() == Pass(old(db.Value()), now) && Inv(db.Value(), now)
    {
      hide Core, Settled, ReservationOk, ScanPass, Snapshot, PendingFreeze, ActiveLeases, EligibleCandidates, StartAll, BypassesCommit, ReservationsCommit;
      ghost var before := db.Value();
      PassInv(before, now);
      if db.paused {
        return;
      }
      PassFacts(before, now);
      var active := ActiveLeases(db.Value());
      var held := ActiveSet(db.Value());
      var eligible := EligibleCandidates(db.Value(), now);
      var freeze := PendingFreeze(db.Value());
      var outcome := PlanPass(active, eligible, Snapshot(db.Value()));
      if outcome.starts == [] && !outcome.satisfy && outcome.invalidate.None? && outcome.create.None? && freeze.None? {
        IdlePass(before, now);
        return;
      }
      var batch := StartBatch(outcome.starts);
      StartAllFrame(before, outcome.starts);
      assert before.reservation == db.reservation;
      CommitReservation(outcome, freeze, held, batch);
      if outcome.create.Some? {
        BlockersFromBatch(before, outcome.starts, outcome.create.value.job, batch);
      }
      assert db.reservation == NextReservation(before, outcome, freeze);
      RecordBypasses(outcome.starts);
    }

    // -----------------------------------------------------------------------
    // The end of an attempt
    // -----------------------------------------------------------------------

    method FinalizeAttemptAndJob(a: AttemptId, state: AttemptState, now: int)
      requires Inv(db.Value(), now) && Enabled(db.Value(), Finish(a, state))
      modifies db
      ensures db.Value() == Finalize(old(db.Value()), a, state, now) && Inv(db.Value(), now)
    {
      hide Core, Settled, ReservationOk, Advance, YieldCount;
      FinalizeInv(db.Value(), a, state, now);
      var attempt := db.attempts[a];
      var job := db.jobs[attempt.job];
      if !job.state.IsTerminal() {
        match state {
          case Succeeded => job := job.(state := JobState.Succeeded);
          case Cancelled => job := job.(state := JobState.Cancelled);
          case Lost =>
            if attempt.yieldDelivered && !attempt.cancelRequested {
              job := job.(state := Held, retryNotBefore := None, readySeq := None);
            } else {
              job := job.(state := JobState.Lost);
            }
          case Yielded =>
            if attempt.cancelRequested {
              job := job.(state := JobState.Cancelled);
            } else {
              job := job.(state := if attempt.yieldHold then Held else Queued, retryNotBefore := None, readySeq := None);
            }
          case Failed =>
            if Used(db.Value(), a, state) < job.maxAttempts && !attempt.cancelRequested {
              var notBefore := if job.retryDelay > 0 then Some(SaturatingAdd(now, job.retryDelay)) else None;
              job := job.(state := Queued, retryNotBefore := notBefore, readySeq := None);
            } else {
              job := job.(state := JobState.Failed);
            }
        }
      }
      GraphAfterRow(db.Value(), attempt.job, job);
      db.CloseAttempt(a, state, job);
      db.AdvanceDependencyGraph(now);
    }

    // -----------------------------------------------------------------------
    // Client mutations
    // -----------------------------------------------------------------------

    method SubmitJob(params: SubmitParams, now: int) returns (error: Option<ErrorCode>)
      requires Inv(db.Value(), now)
      modifies db
      ensures Answers(error, old(db.Value()), Submit(params), now, db.Value())
    {
      hide Core, Settled, ReservationOk, Advance, InsertJob;
      if params.limit == 0 || params.maxAttempts == 0 || params.retryDelay > I64_MAX || !TimeLimitOk(params.timeLimit) {
        return Some(InvalidArgument);
      }
      if !ParentsExist(db.Value(), params.dependencies) {
        return Some(NotFound);
      }
      GraphAfterInsert(db.Value(), params);
      var id := db.InsertJob(params);
      db.AdvanceDependencyGraph(now);
      return None;
    }

    method CancelJob(j: JobId, force: bool, now: int) returns (error: Option<ErrorCode>)
      requires Inv(db.Value(), now)
      modifies db
      ensures Answers(error, old(db.Value()), Cancel(j, force), now, db.Value())
    {
      hide Core, Settled, ReservationOk, Advance;
      if j !in db.jobs {
        return Some(NotFound);
      }
      var job := db.jobs[j];
      if job.state.IsWaiting() {
        GraphAfterRow(db.Value(), j, job.(state := JobState.Cancelled));
        db.InvalidateIfProtected(j);
        db.UpdateJob(j, job.(state := JobState.Cancelled));
        db.AdvanceDependencyGraph(now);
        return None;
      }
      if !job.state.IsActive() {
        return Some(InvalidState);
      }
      var live := LiveAttempt(db.Value(), j);
      if live.None? {
        return Some(InvalidState);
      }
      var a := live.value;
      match db.attempts[a].state {
        case Prepared =>
          if a !in db.leases {
            return Some(InvalidState);
          }
          GraphAfterRow(db.Value(), j, job.(state := JobState.Cancelled));
          db.UpdateAttempt(a, db.attempts[a].(cancelRequested := true));
          db.CloseAttempt(a, AttemptState.Cancelled, job.(state := JobState.Cancelled));
          db.AdvanceDependencyGraph(now);
          return None;
        case Authorized =>
          db.UpdateAttempt(a, db.attempts[a].(cancelRequested := true));
          return None;
        case Running =>
          db.UpdateAttempt(a, db.attempts[a].(cancelRequested := true));
          return None;
        case Orphaned =>
          db.UpdateAttempt(a, db.attempts[a].(cancelRequested := true));
          return None;
        case _ =>
          return Some(UnsafeResolution);
      }
    }

    method YieldJob(j: JobId, hold: bool, now: int) returns (error: Option<ErrorCode>)
      modifies db`attempts
      ensures Answers(error, old(db.Value()), Yield(j, hold), now, db.Value())
    {
      hide SomeoneAhead;
      if j !in db.jobs {
        return Some(NotFound);
      }
      if !db.jobs[j].yieldable || !db.jobs[j].state.Running? {
        return Some(InvalidState);
      }
      var live := LiveAttempt(db.Value(), j);
      if live.None? || !db.attempts[live.value].state.Running? || db.attempts[live.value].cancelRequested {
        return Some(InvalidState);
      }
      if db.attempts[live.value].yieldRequested {
        return None;
      }
      if !hold && !SomeoneAhead(db.Value(), j, now) {
        return Some(InvalidState);
      }
      db.UpdateAttempt(live.value, db.attempts[live.value].(yieldRequested := true, yieldHold := hold));
      return None;
    }

    /** Hold, release, retry and priority edits of one row. */
    method EditRow(op: Op, now: int) returns (error: Option<ErrorCode>)
      requires Inv(db.Value(), now) && (op.Hold? || op.Release? || op.Retry? || op.SetPriority?)
      modifies db
      ensures Answers(error, old(db.Value()), op, now, db.Value())
    {
      hide Core, Settled, ReservationOk, Advance;
      var j := op.job;
      if j !in db.jobs {
        return Some(NotFound);
      }
      var job := db.jobs[j];
      match op {
        case Hold(_) =>
          if !job.state.Queued? {
            return Some(InvalidState);
          }
          db.InvalidateIfProtected(j);
          db.UpdateJob(j, job.(state := Held));
        case Release(_) =>
          if !job.state.Held? {
            return Some(InvalidState);
          }
          db.UpdateJob(j, job.(state := Queued));
        case Retry(_) =>
          if !job.state.IsRetryable() {
            return Some(InvalidState);
          }
          GraphAfterRow(db.Value(), j, job.(state := Queued, retryNotBefore := None, readySeq := None));
          db.UpdateJob(j, job.(state := Queued, retryNotBefore := None, readySeq := None));
          db.AdvanceDependencyGraph(now);
        case SetPriority(_, priority) =>
          if !job.state.IsWaiting() {
            return Some(InvalidState);
          }
          if job.priority == priority {
            return None;
          }
          if job.state.Queued? {
            db.InvalidateIfProtected(j);
          }
          db.UpdateJob(j, job.(priority := priority));
      }
      return None;
    }

    method SetMaxParallelRuns(j: JobId, limit: nat, ghost now: int) returns (error: Option<ErrorCode>)
      modifies db`jobs, db`attempts, db`leases, db`reservation
      ensures Answers(error, old(db.Value()), Op.SetMaxParallelRuns(j, limit), now, db.Value())
    {
      if limit == 0 {
        return Some(InvalidArgument);
      }
      if j !in db.jobs {
        return Some(NotFound);
      }
      var job := db.jobs[j];
      if job.state.IsTerminal() {
        return Some(InvalidState);
      }
      if job.limit == limit {
        return None;
      }
      if job.state.IsWaiting() {
        db.InvalidateIfProtected(j);
      } else {
        var live := LiveAttempt(db.Value(), j);
        if live.None? || !HoldsLease(db.Value(), live.value) {
          return Some(InvalidState);
        }
        db.SetActiveAttemptLimit(live.value, limit);
      }
      db.UpdateJob(j, job.(limit := limit));
      return None;
    }

    method SetTimeLimit(j: JobId, timeLimit: Option<nat>, now: int) returns (error: Option<ErrorCode>)
      modifies db`jobs
      ensures Answers(error, old(db.Value()), Op.SetTimeLimit(j, timeLimit), now, db.Value())
    {
      if timeLimit.Some? && (timeLimit.value == 0 || timeLimit.value > I64_MAX) {
        return Some(InvalidArgument);
      }
      if j !in db.jobs {
        return Some(NotFound);
      }
      var job := db.jobs[j];
      if job.state.IsTerminal() {
        return Some(InvalidState);
      }
      if job.timeLimit == timeLimit {
        return None;
      }
      if !job.state.IsWaiting() && LiveAttempt(db.Value(), j).None? {
        return Some(InvalidState);
      }
      db.UpdateJob(j, job.(timeLimit := timeLimit, timeLimitSetAt := Some(now)));
      return None;
    }

    /** `stillAlive` is the answer of the containment probe. */
    method RecoverResolve(j: JobId, number: nat, how: ResolveAs, stillAlive: bool, now: int) returns (error: Option<ErrorCode>)
      requires Inv(db.Value(), now)
      modifies db
      ensures Answers(error, old(db.Value()), Op.RecoverResolve(j, number, how, stillAlive), now, db.Value())
    {
      hide Core, Settled, ReservationOk, Advance;
      var found := ByNumber(db.Value(), j, number, db.lastAttempt);
      if found.None? || j !in db.jobs || found.value !in db.leases {
        return Some(NotFound);
      }
      var a := found.value;
      if !db.attempts[a].state.Orphaned? && !db.attempts[a].state.Quarantined? {
        return Some(InvalidState);
      }
      if stillAlive {
        return Some(UnsafeResolution);
      }
      var state, job := AttemptState.Lost, db.jobs[j].(state := JobState.Lost);
      if how.AsCancelled? {
        state, job := AttemptState.Cancelled, db.jobs[j].(state := JobState.Cancelled);
      }
      GraphAfterRow(db.Value(), j, job);
      db.CloseAttempt(a, state, job);
      db.AdvanceDependencyGraph(now);
      return None;
    }

    /** One mutation; a rejected one leaves the tables as they were. */
    method ApplyMutation(op: Op, now: int) returns (error: Option<ErrorCode>)
      requires Inv(db.Value(), now)
      modifies db
      ensures Answers(error, old(db.Value()), op, now, db.Value()) && Inv(db.Value(), now)
    {
      hide Inv, Answers;
      ghost var before := db.Value();
      match op {
        case Submit(params) => error := SubmitJob(params, now);
        case Cancel(j, force) => error := CancelJob(j, force, now);
        case Yield(j, hold) => error := YieldJob(j, hold, now);
        case SetMaxParallelRuns(j, limit) => error := SetMaxParallelRuns(j, limit, now);
        case SetTimeLimit(j, timeLimit) => error := SetTimeLimit(j, timeLimit, now);
        case RecoverResolve(j, number, how, alive) => error := RecoverResolve(j, number, how, alive, now);
        case Pause =>
          PauseAnswers(db.Value(), op, now);
          db.SetPaused(true);
          error := None;
        case Unpause =>
          PauseAnswers(db.Value(), op, now);
          db.SetPaused(false);
          error := None;
        case _ => error := EditRow(op, now);
      }
      AnswersKeepInv(error, before, op, now, db.Value());
    }

    // -----------------------------------------------------------------------
    // Reconciliation marks, and all steps together
    // -----------------------------------------------------------------------

    /** Authorized, running, orphaned and quarantined: attempt and job move on together. */
    method MarkLive(a: AttemptId, state: AttemptState, jobState: JobState)
      requires a in db.attempts && db.attempts[a].job in db.jobs
      modifies db`attempts, db`jobs
      ensures db.Value() == WithLive(old(db.Value()), a, state, jobState)
    {
      var j := db.attempts[a].job;
      db.UpdateAttempt(a, db.attempts[a].(state := state));
      db.UpdateJob(j, db.jobs[j].(state := jobState));
    }

    /** Every step of the queue's state machine is one of the methods above, so what holds over every
        run of the machine holds of every sequence of calls. */
    method Take(step: Step, now: int)
      requires Inv(db.Value(), now) && Enabled(db.Value(), step)
      modifies db
      ensures db.Value() == Next(old(db.Value()), step, now) && Inv(db.Value(), now)
    {
      hide Core, Settled, ReservationOk, Apply, Pass, Finalize, Advance;
      StepInv(db.Value(), step, now, now);
      match step {
        case Mutate(op) =>
          var error := ApplyMutation(op, now);
        case MarkAuthorized(a) => MarkLive(a, Authorized, Starting);
        case MarkRunning(a) => MarkLive(a, AttemptState.Running, JobState.Running);
        case MarkOrphaned(a) => MarkLive(a, Orphaned, NeedsAttention);
        case Quarantine(a) => MarkLive(a, Quarantined, NeedsAttention);
        case ObserveYield(a) => db.UpdateAttempt(a, db.attempts[a].(yieldDelivered := true));
        case Finish(a, state) => FinalizeAttemptAndJob(a, state, now);
        case ResolveGraph =>
          GraphOk(db.Value());
          db.AdvanceDependencyGraph(now);
        case SchedulePass => Schedule(now);
      }
    }

    ghost function State(): Served
      reads this, db
    {
      Served(db.Value(), operations)
    }

    /** Look the key up first; otherwise apply and store key, request and reply in one
        transaction. */
    method HandleMutation(key: Key, op: Op, now: int) returns (response: Response)
      requires Inv(db.Value(), now)
      modifies this, db
      ensures response == Answer(old(State()), key, op, now) && State() == Handle(old(State()), key, op, now)
      ensures Inv(db.Value(), now)
    {
      hide Inv, Apply;
      var request := op;
      if op.Submit? {
        var list := CanonicalDependencies(op.params.dependencies);
        request := Submit(op.params.(dependencies := list));
      } else if op.RecoverResolve? {
        request := op.(stillAlive := false);
      }
      if key in operations {
        return if operations[key].request == request then Ok(operations[key].reply) else Conflict;
      }
      ReplyExists(db.Value(), op, now);
      var error := ApplyMutation(op, now);
      if error.Some? {
        return Refused(error.value);
      }
      var reply;
      match op {
        case Submit(_) => reply := Submitted(db.lastJob, db.jobs[db.lastJob]);
        case Pause => reply := PausedReply(true);
        case Unpause => reply := PausedReply(false);
        case _ => reply := JobReply(op.job, db.jobs[op.job]);
      }
      operations := operations[key := Stored(request, reply)];
      return Ok(reply);
    }
  }

  /** The outcome of a mutation and the tables after it are those of `Apply`. */
  ghost predicate Answers(error: Option<ErrorCode>, before: Db, op: Op, now: int, after: Db) {
    match Apply(before, op, now)
    case Rejected(e) => error == Some(e) && after == before
    case Accepted(d) => error == None && after == d
  }

  lemma AnswersKeepInv(error: Option<ErrorCode>, before: Db, op: Op, now: int, after: Db)
    requires Inv(before, now) && Answers(error, before, op, now, after)
    ensures Inv(after, now)
  {
    hide Inv, Apply;
    StepInv(before, Mutate(op), now, now);
  }

  /** A mutation that is accepted always finds the row it replies with. */
  lemma ReplyExists(db: Db, op: Op, now: int)
    requires Inv(db, now)
    ensures Apply(db, op, now).Accepted? ==>
              var d := Apply(db, op, now).db;
              && (op.Submit? ==> d.lastJob in d.jobs)
              && (!op.Submit? && !op.Pause? && !op.Unpause? ==> op.job in d.jobs)
  {
    hide Core, Settled, ReservationOk, Advance, Collapse, NewEdges, SomeoneAhead;
    forall d: Db ensures Advance(d, now).jobs.Keys == d.jobs.Keys && Advance(d, now).lastJob == d.lastJob {
      AdvanceFrame(d, now);
    }
  }

  /** A mutation is carried out exactly when it is accepted, and the reply shows the job it was about as
      the tables have it afterwards. */
  lemma ReplyLaw(db: Db, op: Op, now: int)
    requires Inv(db, now)
    ensures Perform(db, op, now).Done? <==> Apply(db, op, now).Accepted?
    ensures Perform(db, op, now).Done? ==>
              var d, reply := Perform(db, op, now).db, Perform(db, op, now).reply;
              && d == Apply(db, op, now).db
              && match op
                 case Submit(_) => d.lastJob == db.lastJob + 1 && d.lastJob in d.jobs && reply == Submitted(d.lastJob, d.jobs[d.lastJob])
                 case Pause => reply == PausedReply(true)
                 case Unpause => reply == PausedReply(false)
                 case _ => op.job in d.jobs && reply == JobReply(op.job, d.jobs[op.job])
  {
    hide Inv, Apply;
    ReplyExists(db, op, now);
    if op.Submit? && Apply(db, op, now).Accepted? {
      SubmitCounts(db, op.params, now);
    }
  }

  lemma SubmitCounts(db: Db, params: SubmitParams, now: int)
    ensures SubmitJob(db, params, now).Accepted? ==> SubmitJob(db, params, now).db.lastJob == db.lastJob + 1
    ensures Apply(db, Submit(params), now) == SubmitJob(db, params, now)
  {
    hide Advance, Collapse, NewEdges;
    AdvanceFrame(InsertJob(db, params), now);
  }

  lemma GraphOk(db: Db)
    requires Core(db)
    ensures EdgesOk(db) && JobIdsOk(db)
  {
  }

  lemma PauseAnswers(db: Db, op: Op, now: int)
    requires op.Pause? || op.Unpause?
    ensures Answers(None, db, op, now, db.(paused := op.Pause?))
  {
  }

  /** Replacing a row, leases and attempts aside, leaves the graph well formed. */
  lemma GraphAfterRow(db: Db, j: JobId, job: Job)
    requires Core(db) && j in db.jobs
    ensures forall d: Db | d.edges == db.edges && d.lastJob == db.lastJob && d.jobs == db.jobs[j := job] :: EdgesOk(d) && JobIdsOk(d)
  {
  }

  lemma GraphAfterInsert(db: Db, params: SubmitParams)
    requires Core(db) && ParentsExist(db, params.dependencies)
    ensures EdgesOk(InsertJob(db, params)) && JobIdsOk(InsertJob(db, params))
    ensures forall d | d in params.dependencies :: 0 < d.job
  {
    hide InsertJob, AttemptSide, ReadyOk, LatchesOk, PrerequisitesOk, RowsOk, NewEdges, Collapse;
    InsertFrame(db, params);
    InsertEdges(db, InsertJob(db, params), params);
  }

  /** Leases held before the pass and this batch's starts that do not bypass the new reservation. */
  function BlockerIds(held: set<AttemptId>, starts: seq<Start>, protected: JobId, batch: map<JobId, AttemptId>): set<AttemptId> {
    held + set s | s in starts && s.bypasses != Some(protected) && s.job in batch :: batch[s.job]
  }

  /** The reservation with the bypasses among `starts` charged to it. */
  function Charged(res: Option<Reservation>, starts: seq<Start>): Option<Reservation> {
    if res.None? then None else Some(res.value.(consumed := res.value.consumed + BypassJobs(starts, res.value.job)))
  }

  lemma BlockersFromBatch(db: Db, starts: seq<Start>, protected: JobId, batch: map<JobId, AttemptId>)
    requires forall k | 0 <= k < |starts| :: starts[k].job in batch && batch[starts[k].job] == db.lastAttempt + 1 + k
    ensures BlockerIds(ActiveSet(db), starts, protected, batch) == Blockers(db, starts, protected)
  {
    var x, y := BlockerIds(ActiveSet(db), starts, protected, batch), Blockers(db, starts, protected);
    forall a | a in x ensures a in y {
      if a !in ActiveSet(db) {
        var s :| s in starts && s.bypasses != Some(protected) && s.job in batch && a == batch[s.job];
        var k :| 0 <= k < |starts| && starts[k] == s;
      }
    }
    forall a | a in y ensures a in x {
      if a !in ActiveSet(db) {
        var k: nat :| k < |starts| && starts[k].bypasses != Some(protected) && a == db.lastAttempt + 1 + k;
        assert starts[k] in starts;
      }
    }
  }

  lemma NothingStarted(db: Db)
    ensures StartAll(db, []) == db && StartedJobs([]) == {}
  {
  }

  lemma StartedOneMore(front: seq<Start>, s: Start)
    ensures StartedJobs(front + [s]) == StartedJobs(front) + {s.job}
  {
  }

  lemma NothingCharged(res: Option<Reservation>)
    ensures Charged(res, []) == res
  {
    if res.Some? {
      assert res.value.consumed + BypassJobs([], res.value.job) == res.value.consumed;
    }
  }

  lemma ChargedOneMore(res: Option<Reservation>, front: seq<Start>, s: Start)
    ensures Charged(res, front).Some? <==> res.Some?
    ensures res.Some? ==> Charged(res, front).value.job == res.value.job
    ensures Charged(res, front + [s]) ==
            var r := Charged(res, front);
            if r.Some? && s.bypasses == Some(r.value.job) then Some(r.value.(consumed := r.value.consumed + {s.job})) else r
  {
    if res.Some? {
      var j := res.value.job;
      if s.bypasses == Some(j) {
        assert BypassJobs(front + [s], j) == BypassJobs(front, j) + {s.job};
        assert Charged(res, front + [s]).value.consumed == Charged(res, front).value.consumed + {s.job};
      } else {
        assert BypassJobs(front + [s], j) == BypassJobs(front, j);
      }
    }
  }

  lemma StillQueued(db: Db, starts: seq<Start>, i: nat)
    requires i < |starts| && Distinct(starts)
    requires forall s | s in starts :: s.job in db.jobs && db.jobs[s.job].state.Queued?
    ensures Startable(db, starts[..i])
    ensures starts[i].job !in StartedJobs(starts[..i])
    ensures var d := StartAll(db, starts[..i]); starts[i].job in d.jobs && d.jobs[starts[i].job].state.Queued?
  {
    assert starts[i] in starts;
    assert forall s | s in starts[..i] :: s in starts;
    StartAllFrame(db, starts[..i]);
    forall s | s in starts[..i] ensures s.job != starts[i].job {
      var k :| 0 <= k < i && starts[k] == s;
    }
  }

  lemma {:induction false} StartAllAppend(db: Db, front: seq<Start>, s: Start)
    requires Startable(db, front) && Startable(db, front + [s])
    ensures s.job in StartAll(db, front).jobs
    ensures StartAll(db, front + [s]) == StartJob(StartAll(db, front), s.job)
    decreases |front|
  {
    assert s in front + [s];
    if front == [] {
      assert front + [s] == [s] && [s][1..] == [];
    } else {
      assert front[0] in front && (front + [s])[1..] == front[1..] + [s];
      StartAllAppend(StartJob(db, front[0].job), front[1..], s);
    }
  }

  /** What the committing transaction relies on. */
  lemma PassFacts(db: Db, now: int)
    requires Core(db)
    ensures var plan := PassPlan(db, now);
            && UniqueJobs(EligibleCandidates(db, now)) && Distinct(plan.starts) && Startable(db, plan.starts)
            && (forall s | s in plan.starts :: db.jobs[s.job].state.Queued?)
            && (plan.satisfy || plan.invalidate.Some? || PendingFreeze(db).Some? ==> db.reservation.Some?)
            && !(plan.satisfy && plan.invalidate.Some?)
            && (plan.create.Some? ==> db.reservation.None? || plan.satisfy || plan.invalidate.Some?)
            && (var next := NextReservation(db, plan, PendingFreeze(db));
                forall s | s in plan.starts && s.bypasses.Some? :: next.Some? && s.bypasses.value == next.value.job)
  {
    hide Core, ScanPass, ActiveLeases, EligibleCandidates;
    PlanFacts(db, now);
  }

  /** A plan that starts nothing and touches no reservation leaves the tables as they are. */
  lemma IdlePass(db: Db, now: int)
    requires !db.paused
    requires var plan := PassPlan(db, now);
             plan.starts == [] && !plan.satisfy && plan.invalidate.None? && plan.create.None?
    requires PendingFreeze(db).None?
    ensures Pass(db, now) == db
  {
    hide ScanPass, ActiveLeases, EligibleCandidates, Snapshot;
    if db.reservation.Some? {
      assert db.reservation.value.consumed + {} == db.reservation.value.consumed;
      assert BypassJobs([], db.reservation.value.job) == {};
    }
  }
}
