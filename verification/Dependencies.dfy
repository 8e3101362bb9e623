/**
 Dependency resolution as a closed form: which waiting jobs are skipped, what
 every edge latches, and which jobs join the readiness order. Edges point from a
 lower job id to a higher one, so one recursion in ascending id order decides
 everything; `Database.AdvanceDependencyGraph` is the round-by-round loop of the
 source, proved to arrive at the same tables.
 */
module Dependencies {
  import opened Domain
  import opened Tables

  /** Both ends of an edge exist and the parent is the older job. */
  ghost predicate EdgesOk(db: Db) {
    forall p, c | (p, c) in db.edges :: 0 < p < c && p in db.jobs && c in db.jobs
  }

  function Resolve(condition: Condition, outcome: JobState): Resolution {
    if condition.OnTerminal? || outcome.Succeeded? then Satisfied else Violated
  }

  predicate IsViolated(e: Edge) {
    e.latch.Some? && e.latch.value.resolution.Violated?
  }

  predicate IsSatisfied(e: Edge) {
    e.latch.Some? && e.latch.value.resolution.Satisfied?
  }

  /** Whether edge (p, c) makes c impossible, given whether p will be skipped. */
  predicate Dooms(db: Db, p: JobId, c: JobId, parentSkipped: bool)
    requires (p, c) in db.edges && p in db.jobs
  {
    var e := db.edges[(p, c)];
    if e.latch.Some? then IsViolated(e)
    else e.condition.OnSuccess? && (parentSkipped || (db.jobs[p].state.IsTerminal() && !db.jobs[p].state.Succeeded?))
  }

  /** The ascending-id recursion: a waiting job is skipped when some edge dooms it. */
  predicate WillSkip(db: Db, c: JobId)
    decreases c
  {
    && c in db.jobs && db.jobs[c].state.IsWaiting()
    && exists p | 0 <= p < c :: (p, c) in db.edges && p in db.jobs && Dooms(db, p, c, WillSkip(db, p))
  }

  function SettledJob(db: Db, j: JobId): Job
    requires j in db.jobs
  {
    if WillSkip(db, j) then db.jobs[j].(state := Skipped, readySeq := None) else db.jobs[j]
  }

  /** Unresolved edges of a finished parent latch its outcome; others stay. */
  function SettledEdge(db: Db, p: JobId, c: JobId, now: int): Edge
    requires (p, c) in db.edges
  {
    var e := db.edges[(p, c)];
    if e.latch.Some? || p !in db.jobs || !SettledJob(db, p).state.IsTerminal() then e
    else e.(latch := Some(Latch(Resolve(e.condition, SettledJob(db, p).state), SettledJob(db, p).state, now)))
  }

  function SettledJobs(db: Db): map<JobId, Job> {
    map j | j in db.jobs :: SettledJob(db, j)
  }

  function SettledEdges(db: Db, now: int): map<(JobId, JobId), Edge> {
    map k | k in db.edges :: SettledEdge(db, k.0, k.1, now)
  }

  function Settle(db: Db, now: int): Db {
    db.(jobs := SettledJobs(db), edges := SettledEdges(db, now))
  }

  /** A waiting job without a place in the readiness order that may take one. */
  predicate NeedsReady(db: Db, j: JobId, now: int) {
    && j in db.jobs && db.jobs[j].state.IsWaiting() && db.jobs[j].readySeq.None? && DelayElapsed(db.jobs[j], now)
    && forall k | k in db.edges && k.1 == j :: IsSatisfied(db.edges[k])
  }

  function AssignNext(db: Db, j: JobId): Db
    requires j in db.jobs
  {
    db.(readySeq := db.readySeq + 1, jobs := db.jobs[j := db.jobs[j].(readySeq := Some(db.readySeq + 1))])
  }

  function ReadySet(db: Db, now: int): set<JobId> {
    set j | j in db.jobs && NeedsReady(db, j, now)
  }

  /** Hand out readiness positions to `needy` in ascending job id, up to `n`. */
  function AssignReady(db: Db, needy: set<JobId>, n: JobId): (r: Db)
    requires needy <= db.jobs.Keys
    ensures r.jobs.Keys == db.jobs.Keys
  {
    if n == 0 then db
    else
      var before := AssignReady(db, needy, n - 1);
      if n in needy then AssignNext(before, n) else before
  }

  function Advance(db: Db, now: int): Db {
    var settled := Settle(db, now);
    AssignReady(settled, ReadySet(settled, now), db.lastJob)
  }

  // -------------------------------------------------------------------------
  // Least fixed point
  // -------------------------------------------------------------------------

  /** A set of skipped jobs that forces no further skip. */
  ghost predicate ClosedUnderSkips(db: Db, skipped: set<JobId>) {
    forall p, c | (p, c) in db.edges && p in db.jobs && c in db.jobs && db.jobs[c].state.IsWaiting()
                  && Dooms(db, p, c, p in skipped) ::
      c in skipped
  }

  function SkipSet(db: Db): set<JobId> {
    set j | j in db.jobs && WillSkip(db, j)
  }

  /** The skipped jobs are closed, and contained in every closed set. */
  lemma SkipSetIsLeast(db: Db, other: set<JobId>)
    requires EdgesOk(db)
    ensures ClosedUnderSkips(db, SkipSet(db))
    ensures ClosedUnderSkips(db, other) ==> SkipSet(db) <= other
  {
    forall p, c | (p, c) in db.edges && p in db.jobs && c in db.jobs && db.jobs[c].state.IsWaiting()
                  && Dooms(db, p, c, p in SkipSet(db))
      ensures c in SkipSet(db)
    {
      assert 0 <= p < c && Dooms(db, p, c, WillSkip(db, p));
    }
    if ClosedUnderSkips(db, other) {
      forall j | j in SkipSet(db) ensures j in other {
        SkipForced(db, other, j);
      }
    }
  }

  lemma {:induction false} SkipForced(db: Db, other: set<JobId>, c: JobId)
    requires ClosedUnderSkips(db, other) && WillSkip(db, c)
    ensures c in other
    decreases c
  {
    var p :| 0 <= p < c && (p, c) in db.edges && p in db.jobs && Dooms(db, p, c, WillSkip(db, p));
    if WillSkip(db, p) {
      SkipForced(db, other, p);
    }
    assert Dooms(db, p, c, p in other);
  }

  // -------------------------------------------------------------------------
  // The state after settling
  // -------------------------------------------------------------------------

  /** No edge of a finished parent is open, and no waiting job is doomed. */
  ghost predicate Settled(db: Db) {
    && (forall p, c | (p, c) in db.edges && p in db.jobs && db.edges[(p, c)].latch.None? :: !db.jobs[p].state.IsTerminal())
    && (forall p, c | (p, c) in db.edges && c in db.jobs && db.jobs[c].state.IsWaiting() :: !IsViolated(db.edges[(p, c)]))
  }

  lemma SettleSettles(db: Db, now: int)
    requires EdgesOk(db)
    ensures EdgesOk(Settle(db, now)) && Settled(Settle(db, now))
  {
    var d := Settle(db, now);
    forall p, c | (p, c) in d.edges && d.jobs[c].state.IsWaiting() ensures !IsViolated(d.edges[(p, c)]) {
      assert d.edges[(p, c)] == SettledEdge(db, p, c, now);
      assert !WillSkip(db, c);
      assert !Dooms(db, p, c, WillSkip(db, p));
    }
    forall p, c | (p, c) in d.edges && d.edges[(p, c)].latch.None? ensures !d.jobs[p].state.IsTerminal() {
      assert d.edges[(p, c)] == SettledEdge(db, p, c, now);
    }
  }

  /** `r` differs from `db` only in the positions given to needy jobs up to `n`. */
  ghost predicate Readied(db: Db, needy: set<JobId>, n: JobId, r: Db) {
    && r == db.(jobs := r.jobs, readySeq := r.readySeq)
    && r.readySeq >= db.readySeq && r.jobs.Keys == db.jobs.Keys
    && (forall j | j in db.jobs && !(j in needy && 0 < j <= n) :: r.jobs[j] == db.jobs[j])
    && (forall j | j in db.jobs && j in needy && 0 < j <= n ::
          && r.jobs[j] == db.jobs[j].(readySeq := r.jobs[j].readySeq)
          && r.jobs[j].readySeq.Some? && db.readySeq < r.jobs[j].readySeq.value <= r.readySeq)
  }

  lemma {:induction false} AssignReadyFrame(db: Db, needy: set<JobId>, n: JobId)
    requires needy <= db.jobs.Keys
    ensures Readied(db, needy, n, AssignReady(db, needy, n))
  {
    if n != 0 {
      AssignReadyFrame(db, needy, n - 1);
      var before := AssignReady(db, needy, n - 1);
      if n in needy {
        var r := AssignNext(before, n);
        assert forall j | j in db.jobs && j != n :: r.jobs[j] == before.jobs[j];
        assert before.jobs[n] == db.jobs[n];
      }
    }
  }

  /** Positions are handed out first come first served: a lower id that becomes
      ready in the same transaction is ahead. */
  lemma {:induction false} AssignReadyOrder(db: Db, needy: set<JobId>, n: JobId, i: JobId, j: JobId)
    requires needy <= db.jobs.Keys && 0 < i < j <= n && i in needy && j in needy
    ensures var r := AssignReady(db, needy, n);
            r.jobs[i].readySeq.Some? && r.jobs[j].readySeq.Some? && r.jobs[i].readySeq.value < r.jobs[j].readySeq.value
  {
    if j < n {
      AssignReadyOrder(db, needy, n - 1, i, j);
      AssignReadyFrame(db, needy, n - 1);
    } else {
      AssignedLast(db, needy, n, i);
    }
  }

  /** The last position handed out is behind all the others. */
  lemma AssignedLast(db: Db, needy: set<JobId>, n: JobId, i: JobId)
    requires needy <= db.jobs.Keys && 0 < i < n && i in needy && n in needy
    ensures var r := AssignReady(db, needy, n);
            r.jobs[i].readySeq.Some? && r.jobs[n].readySeq.Some? && r.jobs[i].readySeq.value < r.jobs[n].readySeq.value
  {
    var before := AssignReady(db, needy, n - 1);
    AssignReadyFrame(db, needy, n - 1);
    assert AssignReady(db, needy, n) == AssignNext(before, n);
  }

  /** Giving out positions changes no state and no edge. */
  lemma ReadiedKeepsSettled(db: Db, needy: set<JobId>, n: JobId, r: Db)
    requires EdgesOk(db) && Settled(db) && Readied(db, needy, n, r)
    ensures EdgesOk(r) && Settled(r)
  {
    forall j | j in db.jobs ensures r.jobs[j].state == db.jobs[j].state {
    }
  }

  /** After a full advance no finished parent has an open edge and no waiting job a violated one. */
  lemma AdvanceSettles(db: Db, now: int)
    requires EdgesOk(db)
    ensures EdgesOk(Advance(db, now)) && Settled(Advance(db, now))
  {
    SettleSettles(db, now);
    var s := Settle(db, now);
    AssignReadyFrame(s, ReadySet(s, now), s.lastJob);
    ReadiedKeepsSettled(s, ReadySet(s, now), s.lastJob, Advance(db, now));
  }

  /** The jobs skipped are exactly those of the ascending recursion. */
  lemma AdvanceVerdicts(db: Db, now: int, j: JobId)
    requires j in db.jobs
    ensures var r := Advance(db, now);
            j in r.jobs && r.jobs[j].state == if WillSkip(db, j) then Skipped else db.jobs[j].state
  {
    var s := Settle(db, now);
    AssignReadyFrame(s, ReadySet(s, now), s.lastJob);
  }

  /** After resolution every queued or held job whose retry delay has passed and whose edges have all
      latched as satisfied has a place in the readiness order. */
  lemma AdvanceReadies(db: Db, now: int, j: JobId)
    requires JobIdsOk(db)
    ensures var r := Advance(db, now);
            && j in r.jobs && (r.jobs[j].state == Queued || r.jobs[j].state == Held)
            && (r.jobs[j].retryNotBefore.None? || r.jobs[j].retryNotBefore.value <= now)
            && (forall p: JobId | (p, j) in r.edges ::
                  r.edges[(p, j)].latch.Some? && r.edges[(p, j)].latch.value.resolution == Satisfied)
            ==> r.jobs[j].readySeq.Some?
  {
    var s := Settle(db, now);
    var needy := ReadySet(s, now);
    var r := Advance(db, now);
    AssignReadyFrame(s, needy, s.lastJob);
    assert r.edges == s.edges && r.jobs.Keys == s.jobs.Keys;
    SatisfiedIsNeedy(s, j, now);
  }

  /** What an edge latches: the first terminal state of its parent, which satisfies an edge that asks only
      for an end, and an edge that asks for success only by success. A latched edge stays. */
  lemma AdvanceLatches(db: Db, now: int, p: JobId, c: JobId)
    requires (p, c) in db.edges && p in db.jobs
    ensures var r := Advance(db, now);
            && (p, c) in r.edges && p in r.jobs && r.edges[(p, c)].condition == db.edges[(p, c)].condition
            && (db.edges[(p, c)].latch.Some? ==> r.edges[(p, c)] == db.edges[(p, c)])
            && (db.edges[(p, c)].latch.None? && !r.jobs[p].state.IsTerminal() ==> r.edges[(p, c)].latch.None?)
            && (db.edges[(p, c)].latch.None? && r.jobs[p].state.IsTerminal() ==>
                  r.edges[(p, c)].latch ==
                  Some(Latch(if db.edges[(p, c)].condition == OnTerminal || r.jobs[p].state == JobState.Succeeded then Satisfied else Violated,
                             r.jobs[p].state, now)))
  {
    var s := Settle(db, now);
    AssignReadyFrame(s, ReadySet(s, now), s.lastJob);
  }

  /** Which jobs are skipped: exactly the waiting ones one of whose edges has latched as violated. */
  lemma AdvanceSkips(db: Db, now: int, c: JobId)
    requires EdgesOk(db) && c in db.jobs && (db.jobs[c].state == Queued || db.jobs[c].state == Held)
    ensures var r := Advance(db, now);
            && c in r.jobs
            && (r.jobs[c].state == Skipped <==>
                  exists p: JobId :: (p, c) in r.edges && r.edges[(p, c)].latch.Some? && r.edges[(p, c)].latch.value.resolution == Violated)
            && (r.jobs[c].state != Skipped ==> r.jobs[c].state == db.jobs[c].state)
  {
    hide NeedsReady;
    var s := Settle(db, now);
    AssignReadyFrame(s, ReadySet(s, now), s.lastJob);
    SettleSkips(db, now, c);
  }

  lemma SettleSkips(db: Db, now: int, c: JobId)
    requires EdgesOk(db) && c in db.jobs && db.jobs[c].state.IsWaiting()
    ensures var s := Settle(db, now);
            WillSkip(db, c) <==>
              exists p: JobId :: (p, c) in s.edges && s.edges[(p, c)].latch.Some? && s.edges[(p, c)].latch.value.resolution == Violated
  {
    var s := Settle(db, now);
    forall p: JobId | (p, c) in db.edges
      ensures Dooms(db, p, c, WillSkip(db, p)) <==>
              s.edges[(p, c)].latch.Some? && s.edges[(p, c)].latch.value.resolution == Violated
    {
      assert s.edges[(p, c)] == SettledEdge(db, p, c, now);
    }
    if WillSkip(db, c) {
      var p :| 0 <= p < c && (p, c) in db.edges && p in db.jobs && Dooms(db, p, c, WillSkip(db, p));
      assert (p, c) in s.edges;
    }
  }

  lemma SatisfiedIsNeedy(s: Db, j: JobId, now: int)
    ensures && j in s.jobs && (s.jobs[j].state == Queued || s.jobs[j].state == Held)
            && (s.jobs[j].retryNotBefore.None? || s.jobs[j].retryNotBefore.value <= now)
            && (forall p: JobId | (p, j) in s.edges ::
                  s.edges[(p, j)].latch.Some? && s.edges[(p, j)].latch.value.resolution == Satisfied)
            ==> s.jobs[j].readySeq.Some? || NeedsReady(s, j, now)
  {
    if forall p: JobId | (p, j) in s.edges :: s.edges[(p, j)].latch.Some? && s.edges[(p, j)].latch.value.resolution == Satisfied {
      forall k | k in s.edges && k.1 == j ensures IsSatisfied(s.edges[k]) {
        assert (k.0, j) in s.edges;
      }
    }
  }

  // -------------------------------------------------------------------------
  // One round of the loop
  // -------------------------------------------------------------------------

  predicate Latchable(db: Db, p: JobId, c: JobId) {
    (p, c) in db.edges && db.edges[(p, c)].latch.None? && p in db.jobs && db.jobs[p].state.IsTerminal()
  }

  function LatchEdge(db: Db, p: JobId, c: JobId, now: int): Db
    requires (p, c) in db.edges && p in db.jobs
  {
    var e := db.edges[(p, c)];
    var outcome := db.jobs[p].state;
    db.(edges := db.edges[(p, c) := e.(latch := Some(Latch(Resolve(e.condition, outcome), outcome, now)))])
  }

  predicate Skippable(db: Db, c: JobId) {
    && c in db.jobs && db.jobs[c].state.IsWaiting()
    && exists k | k in db.edges :: k.1 == c && IsViolated(db.edges[k])
  }

  function SkipJob(db: Db, c: JobId): Db
    requires c in db.jobs
  {
    db.(jobs := db.jobs[c := db.jobs[c].(state := Skipped, readySeq := None)])
  }

  /** Latching one edge changes no verdict. */
  lemma {:induction false} LatchKeepsVerdicts(db: Db, p: JobId, c: JobId, now: int, j: JobId)
    requires EdgesOk(db) && Latchable(db, p, c)
    ensures WillSkip(LatchEdge(db, p, c, now), j) == WillSkip(db, j)
    decreases j
  {
    var d := LatchEdge(db, p, c, now);
    forall q | 0 <= q < j ensures WillSkip(d, q) == WillSkip(db, q) {
      LatchKeepsVerdicts(db, p, c, now, q);
    }
    forall q | 0 <= q < j && (q, j) in db.edges ensures Dooms(d, q, j, WillSkip(d, q)) == Dooms(db, q, j, WillSkip(db, q)) {
    }
    assert WillSkip(db, j) ==> WillSkip(d, j) by {
      if WillSkip(db, j) {
        var q :| 0 <= q < j && (q, j) in db.edges && q in db.jobs && Dooms(db, q, j, WillSkip(db, q));
        assert Dooms(d, q, j, WillSkip(d, q));
      }
    }
    assert WillSkip(d, j) ==> WillSkip(db, j) by {
      if WillSkip(d, j) {
        var q :| 0 <= q < j && (q, j) in d.edges && q in d.jobs && Dooms(d, q, j, WillSkip(d, q));
        assert Dooms(db, q, j, WillSkip(db, q));
      }
    }
  }

  lemma LatchKeepsSettlement(db: Db, p: JobId, c: JobId, now: int)
    requires EdgesOk(db) && Latchable(db, p, c)
    ensures Settle(LatchEdge(db, p, c, now), now) == Settle(db, now)
  {
    var d := LatchEdge(db, p, c, now);
    forall j ensures WillSkip(d, j) == WillSkip(db, j) {
      LatchKeepsVerdicts(db, p, c, now, j);
    }
    assert SettledJobs(d) == SettledJobs(db);
    forall k | k in db.edges ensures SettledEdge(d, k.0, k.1, now) == SettledEdge(db, k.0, k.1, now) {
    }
    assert SettledEdges(d, now) == SettledEdges(db, now);
  }

  /** Skipping one doomed job removes its own verdict and no other. */
  lemma {:induction false} SkipKeepsVerdicts(db: Db, c: JobId, j: JobId)
    requires EdgesOk(db) && Skippable(db, c)
    ensures WillSkip(db, c)
    ensures WillSkip(SkipJob(db, c), j) == (WillSkip(db, j) && j != c)
    decreases j
  {
    var k :| k in db.edges && k.1 == c && IsViolated(db.edges[k]);
    assert (k.0, c) in db.edges && Dooms(db, k.0, c, WillSkip(db, k.0));
    var d := SkipJob(db, c);
    forall q | 0 <= q < j ensures WillSkip(d, q) == (WillSkip(db, q) && q != c) {
      SkipKeepsVerdicts(db, c, q);
    }
    forall q | 0 <= q < j && (q, j) in db.edges ensures Dooms(d, q, j, WillSkip(d, q)) == Dooms(db, q, j, WillSkip(db, q)) {
    }
    if WillSkip(db, j) && j != c {
      var q :| 0 <= q < j && (q, j) in db.edges && q in db.jobs && Dooms(db, q, j, WillSkip(db, q));
      assert Dooms(d, q, j, WillSkip(d, q));
    }
    if WillSkip(d, j) {
      var q :| 0 <= q < j && (q, j) in d.edges && q in d.jobs && Dooms(d, q, j, WillSkip(d, q));
      assert Dooms(db, q, j, WillSkip(db, q));
    }
  }

  lemma SkipKeepsSettlement(db: Db, c: JobId, now: int)
    requires EdgesOk(db) && Skippable(db, c)
    ensures Settle(SkipJob(db, c), now) == Settle(db, now)
  {
    var d := SkipJob(db, c);
    forall j ensures WillSkip(db, c) && WillSkip(d, j) == (WillSkip(db, j) && j != c) {
      SkipKeepsVerdicts(db, c, j);
    }
    assert SettledJobs(d) == SettledJobs(db);
    forall k | k in db.edges ensures SettledEdge(d, k.0, k.1, now) == SettledEdge(db, k.0, k.1, now) {
      assert SettledJob(d, k.0) == SettledJob(db, k.0);
    }
    assert SettledEdges(d, now) == SettledEdges(db, now);
  }

  /** With nothing to latch and nothing to skip the tables are already settled. */
  lemma QuietIsSettled(db: Db, now: int)
    requires EdgesOk(db)
    requires forall p, c :: !Latchable(db, p, c)
    requires forall c :: !Skippable(db, c)
    ensures Settle(db, now) == db
  {
    forall j ensures !WillSkip(db, j) {
      NothingDoomed(db, j);
    }
    assert SettledJobs(db) == db.jobs;
    forall k | k in db.edges ensures SettledEdge(db, k.0, k.1, now) == db.edges[k] {
      assert !Latchable(db, k.0, k.1);
    }
    assert SettledEdges(db, now) == db.edges;
  }

  lemma {:induction false} NothingDoomed(db: Db, j: JobId)
    requires EdgesOk(db)
    requires forall p, c :: !Latchable(db, p, c)
    requires forall c :: !Skippable(db, c)
    ensures !WillSkip(db, j)
    decreases j
  {
    if WillSkip(db, j) {
      var p :| 0 <= p < j && (p, j) in db.edges && p in db.jobs && Dooms(db, p, j, WillSkip(db, p));
      assert !Latchable(db, p, j) && !Skippable(db, j);
      NothingDoomed(db, p);
    }
  }
}
