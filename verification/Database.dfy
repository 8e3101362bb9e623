/**
 The stored tables as an object, with the writing functions of the database
 layer. Each method is proved against the function on `Db` that the theorems
 are about.
 */
module Database {
  import opened Domain
  import opened Scheduler
  import opened Tables
  import opened Dependencies
  import opened Submissions
  import opened Transactions

  class Store {
    var lastJob: JobId
    var jobs: map<JobId, Job>
    var edges: map<(JobId, JobId), Edge>
    var lastAttempt: AttemptId
    var attempts: map<AttemptId, Attempt>
    var leases: map<AttemptId, Lease>
    var readySeq: nat
    var lastReservation: nat
    var reservation: Option<Reservation>
    var paused: bool

    function Value(): Db
      reads this
    {
      Db(lastJob, jobs, edges, lastAttempt, attempts, leases, readySeq, lastReservation, reservation, paused)
    }

    constructor ()
      ensures Value() == EMPTY
    {
      lastJob, jobs, edges := 0, map[], map[];
      lastAttempt, attempts, leases := 0, map[], map[];
      readySeq, lastReservation, reservation, paused := 0, 0, None, false;
    }

    /** The counter always moves; only a row without a position takes the new one. */
    method AssignNextReadySeq(j: JobId)
      requires j in jobs
      modifies this`readySeq, this`jobs
      ensures old(jobs)[j].readySeq.None? ==> Value() == AssignNext(old(Value()), j)
      ensures old(jobs)[j].readySeq.Some? ==> Value() == old(Value()).(readySeq := old(readySeq) + 1)
    {
      readySeq := readySeq + 1;
      if jobs[j].readySeq.None? {
        jobs := jobs[j := jobs[j].(readySeq := Some(readySeq))];
      }
    }

    /** One open edge per collapsed parent. */
    method InsertEdges(collapsed: map<int, Condition>, id: JobId)
      requires forall p | p in collapsed :: 0 < p
      modifies this`edges
      ensures edges == old(edges) + NewEdges(collapsed, id)
    {
      hide NewEdges;
      var parents := set p: JobId | p in collapsed;
      NoNewEdges(id);
      assert collapsed - parents == map[];
      while parents != {}
        invariant parents <= collapsed.Keys
        invariant edges == old(edges) + NewEdges(collapsed - parents, id)
        decreases parents
      {
        var p :| p in parents;
        assert p in collapsed;
        NewEdgesOneMore(collapsed, parents, p, id);
        edges := edges[(p, id) := Edge(collapsed[p], None)];
        parents := parents - {p};
      }
      assert collapsed - {} == collapsed;
    }

    /** Collapse the declarations to one edge per parent, insert row and edges. */
    method InsertJob(params: SubmitParams) returns (id: JobId)
      requires forall d | d in params.dependencies :: 0 < d.job
      modifies this
      ensures id == old(lastJob) + 1 && Value() == Transactions.InsertJob(old(Value()), params)
    {
      hide NewEdges, Collapse;
      id := lastJob + 1;
      lastJob := id;
      jobs := jobs[id := Job(Queued, params.limit, params.priority, params.maxAttempts, params.retryDelay, None, None, 0,
                             params.yieldable, params.timeLimit, None)];
      var collapsed := CollapseDependencies(params.dependencies);
      CollapseMeaning(params.dependencies);
      InsertEdges(collapsed, id);
      if collapsed.Keys == {} {
        AssignNextReadySeq(id);
      }
    }

    /** Latch the outcome of every finished parent on its open edges. */
    method LatchFinished(now: int)
      requires EdgesOk(Value())
      modifies this`edges
      ensures EdgesOk(Value()) && Settle(Value(), now) == Settle(old(Value()), now)
      ensures forall p: JobId, c: JobId :: !Latchable(Value(), p, c)
    {
      hide Settle;
      var open := set k | k in edges && Latchable(Value(), k.0, k.1);
      while open != {}
        invariant EdgesOk(Value()) && Settle(Value(), now) == Settle(old(Value()), now)
        invariant forall p: JobId, c: JobId :: Latchable(Value(), p, c) <==> (p, c) in open
        decreases open
      {
        var k :| k in open;
        assert Latchable(Value(), k.0, k.1);
        LatchKeepsSettlement(Value(), k.0, k.1, now);
        var outcome := jobs[k.0].state;
        edges := edges[k := edges[k].(latch := Some(Latch(Resolve(edges[k].condition, outcome), outcome, now)))];
        open := open - {k};
      }
    }

    /** Skip every waiting job with a violated edge. */
    method SkipViolated(doomed: set<JobId>, ghost now: int)
      requires EdgesOk(Value())
      requires forall c :: c in doomed <==> Skippable(Value(), c)
      modifies this`jobs
      ensures EdgesOk(Value()) && Settle(Value(), now) == Settle(old(Value()), now)
      ensures WaitingJobs(jobs) == WaitingJobs(old(jobs)) - doomed
    {
      hide Settle;
      var left := doomed;
      while left != {}
        invariant EdgesOk(Value()) && Settle(Value(), now) == Settle(old(Value()), now)
        invariant left <= doomed && forall c | c in left :: Skippable(Value(), c)
        invariant WaitingJobs(jobs) == WaitingJobs(old(jobs)) - (doomed - left)
        decreases left
      {
        var c :| c in left;
        SkipKeepsSettlement(Value(), c, now);
        SkipLeavesWaiting(Value(), c);
        ghost var before := Value();
        jobs := jobs[c := jobs[c].(state := Skipped, readySeq := None)];
        left := left - {c};
        forall i | i in left ensures Skippable(Value(), i) {
          assert Skippable(before, i);
        }
      }
    }

    /** Rounds of latching and skipping until nothing changes. Every round but the
        last skips at least one waiting job. */
    method SettleGraph(now: int)
      requires EdgesOk(Value())
      modifies this`jobs, this`edges
      ensures Value() == Settle(old(Value()), now)
    {
      hide Settle;
      while true
        invariant EdgesOk(Value()) && Settle(Value(), now) == Settle(old(Value()), now)
        decreases WaitingJobs(jobs)
      {
        LatchFinished(now);
        var doomed := set c | c in jobs && Skippable(Value(), c);
        if doomed == {} {
          QuietIsSettled(Value(), now) by {
            assert forall c :: !Skippable(Value(), c) by {
              forall c ensures !Skippable(Value(), c) {
                assert c !in doomed;
              }
            }
          }
          return;
        }
        ghost var c :| c in doomed;
        assert c in WaitingJobs(jobs);
        SkipViolated(doomed, now);
      }
    }

    /** Settle, then readiness positions in ascending id. */
    method AdvanceDependencyGraph(now: int)
      requires EdgesOk(Value()) && JobIdsOk(Value())
      modifies this
      ensures Value() == Advance(old(Value()), now)
    {
      hide Settle, NeedsReady;
      ghost var start := Value();
      SettleGraph(now);
      ghost var settled := Value();
      assert settled.lastJob == start.lastJob;
      var ready := ReadySet(Value(), now);
      var n := 0;
      while n < lastJob
        invariant n <= lastJob == settled.lastJob && Value() == AssignReady(settled, ready, n)
      {
        n := n + 1;
        if n in ready {
          AssignReadyFrame(settled, ready, n - 1);
          assert NeedsReady(settled, n, now);
          StillUnready(settled, n, now);
          AssignNextReadySeq(n);
        }
      }
    }

    /** A prepared attempt and its lease, the job moved to starting. */
    method CreateAttemptWithLease(j: JobId) returns (id: AttemptId)
      requires j in jobs
      modifies this`lastAttempt, this`attempts, this`leases, this`jobs
      ensures id == lastAttempt == old(lastAttempt) + 1 && Value() == StartJob(old(Value()), j)
    {
      var job := jobs[j];
      id := lastAttempt + 1;
      lastAttempt := id;
      attempts := attempts[id := Attempt(j, job.attemptCount + 1, Prepared, job.limit, false, false, false, false)];
      leases := leases[id := Lease(j, job.limit, false)];
      jobs := jobs[j := job.(state := Starting, attemptCount := job.attemptCount + 1)];
    }

    /** Terminal attempt state, lease release and the job's new row. */
    method CloseAttempt(a: AttemptId, state: AttemptState, job: Job)
      requires a in attempts && a in leases
      modifies this`attempts, this`leases, this`jobs
      ensures Value() == Close(old(Value()), a, state, job)
    {
      attempts := attempts[a := attempts[a].(state := state)];
      leases := leases[a := leases[a].(released := true)];
      jobs := jobs[attempts[a].job := job];
    }

    method UpdateJob(j: JobId, job: Job)
      modifies this`jobs
      ensures Value() == WithJob(old(Value()), j, job)
    {
      jobs := jobs[j := job];
    }

    method UpdateAttempt(a: AttemptId, attempt: Attempt)
      modifies this`attempts
      ensures Value() == WithAttempt(old(Value()), a, attempt)
    {
      attempts := attempts[a := attempt];
    }

    /** The live copies of the limit; the job row follows separately. */
    method SetActiveAttemptLimit(a: AttemptId, limit: nat)
      requires a in attempts && a in leases
      modifies this`attempts, this`leases
      ensures attempts == old(attempts)[a := old(attempts)[a].(limit := limit)]
      ensures leases == old(leases)[a := old(leases)[a].(limit := limit)]
    {
      attempts := attempts[a := attempts[a].(limit := limit)];
      leases := leases[a := leases[a].(limit := limit)];
    }

    method SetPaused(value: bool)
      modifies this`paused
      ensures Value() == old(Value()).(paused := value)
    {
      paused := value;
    }

    method InvalidateIfProtected(j: JobId)
      modifies this`reservation
      ensures Value() == DropReservation(old(Value()), j)
    {
      if reservation.Some? && reservation.value.job == j {
        reservation := None;
      }
    }

    /** Satisfied and invalidated reservations are history. */
    method ResolveReservation()
      requires reservation.Some?
      modifies this`reservation
      ensures reservation.None?
    {
      reservation := None;
    }

    /** At most one reservation is active. */
    method CreateReservation(j: JobId, blockers: set<AttemptId>)
      requires reservation.None?
      modifies this`reservation, this`lastReservation
      ensures lastReservation == old(lastReservation) + 1
      ensures reservation == Some(Reservation(lastReservation, j, UNFROZEN, blockers, {}))
    {
      lastReservation := lastReservation + 1;
      reservation := Some(Reservation(lastReservation, j, UNFROZEN, blockers, {}));
    }

    /** Guarded on the sentinel: a pinned frontier is never moved. */
    method FreezeReservationCutoff(cutoff: nat)
      requires reservation.Some?
      modifies this`reservation
      ensures Value() == old(Value()).(reservation := Some(old(reservation).value.(
                cutoff := if old(reservation).value.cutoff == UNFROZEN then cutoff else old(reservation).value.cutoff)))
    {
      if reservation.value.cutoff == UNFROZEN {
        reservation := Some(reservation.value.(cutoff := cutoff));
      }
    }

    /** One bypass per job: recording it again changes nothing. */
    method RecordBackfill(j: JobId)
      requires reservation.Some?
      modifies this`reservation
      ensures Value() == old(Value()).(reservation := Some(old(reservation).value.(consumed := old(reservation).value.consumed + {j})))
    {
      reservation := Some(reservation.value.(consumed := reservation.value.consumed + {j}));
    }
  }

  function WaitingJobs(jobs: map<JobId, Job>): set<JobId> {
    set j | j in jobs && jobs[j].state.IsWaiting()
  }

  lemma NoNewEdges(id: JobId)
    ensures NewEdges(map[], id) == map[]
  {
  }

  lemma NewEdgesOneMore(collapsed: map<int, Condition>, parents: set<int>, p: JobId, id: JobId)
    requires p in parents && parents <= collapsed.Keys
    ensures NewEdges(collapsed - (parents - {p}), id) == NewEdges(collapsed - parents, id)[(p, id) := Edge(collapsed[p], None)]
  {
  }

  lemma SkipLeavesWaiting(db: Db, c: JobId)
    requires Skippable(db, c)
    ensures WaitingJobs(SkipJob(db, c).jobs) == WaitingJobs(db.jobs) - {c}
  {
  }

  lemma StillUnready(db: Db, j: JobId, now: int)
    requires NeedsReady(db, j, now)
    ensures j in db.jobs && db.jobs[j].readySeq.None?
  {
  }

  /** The collapse loop over the declared dependencies. */
  method CollapseDependencies(deps: seq<DependencySpec>) returns (collapsed: map<int, Condition>)
    ensures collapsed == Collapse(deps)
  {
    collapsed := map[];
    var i := 0;
    while i < |deps|
      invariant i <= |deps| && collapsed == Collapse(deps[..i])
    {
      assert deps[..i + 1][..i] == deps[..i];
      var d := deps[i];
      if d.job in collapsed {
        if d.condition.OnSuccess? {
          collapsed := collapsed[d.job := OnSuccess];
        }
      } else {
        collapsed := collapsed[d.job := d.condition];
      }
      i := i + 1;
    }
    assert deps[..|deps|] == deps;
  }
}
