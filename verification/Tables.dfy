/**
 The durable tables as one value, and the queries that only read them. One
 transaction takes a `Db` to the next.
 */
module Tables {
  import opened Domain
  import opened Scheduler

  datatype Job = Job(
    state: JobState,
    limit: nat,
    priority: int,
    maxAttempts: nat,
    retryDelay: nat,
    retryNotBefore: Option<int>,
    readySeq: Option<nat>,
    attemptCount: nat,
    yieldable: bool,
    timeLimit: Option<nat>,
    timeLimitSetAt: Option<int>)

  /** The first terminal outcome of a parent, as an edge recorded it. */
  datatype Latch = Latch(resolution: Resolution, outcome: JobState, at: int)

  datatype Edge = Edge(condition: Condition, latch: Option<Latch>)

  datatype Attempt = Attempt(
    job: JobId,
    number: nat,
    state: AttemptState,
    limit: nat,
    cancelRequested: bool,
    yieldRequested: bool,
    yieldHold: bool,
    yieldDelivered: bool)

  datatype Lease = Lease(job: JobId, limit: nat, released: bool)

  /** A cutoff of 0 marks a backfill window that is still open. */
  const UNFROZEN: nat := 0

  datatype Reservation = Reservation(
    id: nat,
    job: JobId,
    cutoff: nat,
    blockers: set<AttemptId>,
    consumed: set<JobId>)

  /** Edges are keyed by parent and child. Resolved reservations are history the
      scheduler never reads again, so only the active one is kept. */
  datatype Db = Db(
    lastJob: JobId,
    jobs: map<JobId, Job>,
    edges: map<(JobId, JobId), Edge>,
    lastAttempt: AttemptId,
    attempts: map<AttemptId, Attempt>,
    leases: map<AttemptId, Lease>,
    readySeq: nat,
    lastReservation: nat,
    reservation: Option<Reservation>,
    paused: bool)

  const EMPTY: Db := Db(0, map[], map[], 0, map[], map[], 0, 0, None, false)

  // -------------------------------------------------------------------------
  // Eligibility
  // -------------------------------------------------------------------------

  predicate DelayElapsed(job: Job, now: int) {
    job.retryNotBefore.None? || job.retryNotBefore.value <= now
  }

  predicate IsEligible(db: Db, j: JobId, now: int) {
    j in db.jobs && db.jobs[j].state.Queued? && db.jobs[j].readySeq.Some? && DelayElapsed(db.jobs[j], now)
  }

  function CandidateOf(db: Db, j: JobId): Candidate
    requires j in db.jobs && db.jobs[j].readySeq.Some?
  {
    var job := db.jobs[j];
    Candidate(j, job.readySeq.value, job.limit, job.priority)
  }

  function InsertRanked(c: Candidate, s: seq<Candidate>): seq<Candidate> {
    if s == [] || Before(c, s[0]) then [c] + s else [s[0]] + InsertRanked(c, s[1..])
  }

  function EligibleUpTo(db: Db, now: int, n: JobId): seq<Candidate> {
    if n == 0 then []
    else if IsEligible(db, n, now) then InsertRanked(CandidateOf(db, n), EligibleUpTo(db, now, n - 1))
    else EligibleUpTo(db, now, n - 1)
  }

  /** Jobs eligible for admission right now, in priority/readiness order. */
  function EligibleCandidates(db: Db, now: int): seq<Candidate> {
    EligibleUpTo(db, now, db.lastJob)
  }

  ghost predicate ReadyUnique(db: Db) {
    forall i, j | i in db.jobs && j in db.jobs && i != j && db.jobs[i].readySeq.Some? && db.jobs[j].readySeq.Some? ::
      db.jobs[i].readySeq != db.jobs[j].readySeq
  }

  ghost predicate JobIdsOk(db: Db) {
    forall j | j in db.jobs :: 1 <= j <= db.lastJob
  }

  lemma {:induction false} InsertRankedFacts(c: Candidate, s: seq<Candidate>)
    requires Ranked(s)
    requires forall d | d in s :: Before(c, d) || Before(d, c)
    ensures Ranked(InsertRanked(c, s))
    ensures forall d :: d in InsertRanked(c, s) <==> d == c || d in s
  {
    if s == [] || Before(c, s[0]) {
      assert InsertRanked(c, s) == [c] + s;
    } else {
      var rest := InsertRanked(c, s[1..]);
      assert Ranked(s[1..]);
      InsertRankedFacts(c, s[1..]);
      assert InsertRanked(c, s) == [s[0]] + rest;
      assert forall d :: d in s <==> d == s[0] || d in s[1..];
      assert s[0] in s;
      forall i | 0 <= i < |rest| ensures Before(s[0], rest[i]) {
        assert rest[i] in rest;
        if rest[i] != c {
          var k :| 0 <= k < |s[1..]| && s[1..][k] == rest[i];
          assert s[k + 1] == rest[i];
        }
      }
    }
  }

  lemma {:induction false} EligibleUpToFacts(db: Db, now: int, n: JobId)
    requires ReadyUnique(db)
    ensures Ranked(EligibleUpTo(db, now, n))
    ensures forall c :: c in EligibleUpTo(db, now, n) <==> c.job <= n && c.job != 0 && IsEligible(db, c.job, now) && c == CandidateOf(db, c.job)
  {
    if n != 0 {
      EligibleUpToFacts(db, now, n - 1);
      if IsEligible(db, n, now) {
        var rest := EligibleUpTo(db, now, n - 1);
        forall d | d in rest ensures Before(CandidateOf(db, n), d) || Before(d, CandidateOf(db, n)) {
          assert d.job != n && d == CandidateOf(db, d.job);
        }
        InsertRankedFacts(CandidateOf(db, n), rest);
      }
    }
  }

  /** The candidate list holds exactly the eligible jobs, once each, strictly ranked. */
  lemma EligibleFacts(db: Db, now: int)
    requires ReadyUnique(db) && JobIdsOk(db)
    ensures Ranked(EligibleCandidates(db, now)) && UniqueJobs(EligibleCandidates(db, now))
    ensures forall c :: c in EligibleCandidates(db, now) <==> IsEligible(db, c.job, now) && c == CandidateOf(db, c.job)
    ensures forall j | IsEligible(db, j, now) ::
              Listed(EligibleCandidates(db, now), j) && Lookup(EligibleCandidates(db, now), j) == CandidateOf(db, j)
    ensures forall j | Listed(EligibleCandidates(db, now), j) :: IsEligible(db, j, now)
  {
    EligibleUpToFacts(db, now, db.lastJob);
    var s := EligibleCandidates(db, now);
    forall i, j | 0 <= i < j < |s| ensures s[i].job != s[j].job {
      assert Before(s[i], s[j]) && s[i] in s && s[j] in s;
    }
    forall j | IsEligible(db, j, now) ensures Listed(s, j) && Lookup(s, j) == CandidateOf(db, j) {
      assert CandidateOf(db, j) in s;
    }
  }

  // -------------------------------------------------------------------------
  // Leases
  // -------------------------------------------------------------------------

  predicate HoldsLease(db: Db, a: AttemptId) {
    a in db.leases && !db.leases[a].released
  }

  function LeaseRow(db: Db, a: AttemptId): ActiveLease
    requires a in db.leases
  {
    ActiveLease(db.leases[a].job, db.leases[a].limit)
  }

  function ActiveUpTo(db: Db, n: AttemptId): (ids: seq<AttemptId>)
    ensures forall a | a in ids :: HoldsLease(db, a) && 1 <= a <= n
  {
    if n == 0 then []
    else ActiveUpTo(db, n - 1) + if HoldsLease(db, n) then [n] else []
  }

  /** Attempts with an unreleased lease, by id. */
  function ActiveIds(db: Db): (ids: seq<AttemptId>)
    ensures forall a | a in ids :: HoldsLease(db, a)
  {
    ActiveUpTo(db, db.lastAttempt)
  }

  /** Unreleased leases in the order of their attempts. */
  function ActiveLeases(db: Db): (rows: seq<ActiveLease>)
    ensures |rows| == |ActiveIds(db)|
    ensures forall i | 0 <= i < |rows| :: HoldsLease(db, ActiveIds(db)[i]) && rows[i] == LeaseRow(db, ActiveIds(db)[i])
  {
    var ids := ActiveIds(db);
    assert forall i | 0 <= i < |ids| :: ids[i] in ids;
    seq(|ids|, i requires 0 <= i < |ids| => LeaseRow(db, ids[i]))
  }

  function ActiveSet(db: Db): set<AttemptId> {
    set a | a in db.leases && !db.leases[a].released
  }

  function ActiveBelow(db: Db, n: AttemptId): set<AttemptId> {
    set a | a in ActiveSet(db) && 1 <= a <= n
  }

  lemma ActiveBelowStep(db: Db, n: AttemptId)
    requires n != 0
    ensures n !in ActiveBelow(db, n - 1)
    ensures ActiveBelow(db, n) == if HoldsLease(db, n) then ActiveBelow(db, n - 1) + {n} else ActiveBelow(db, n - 1)
  {
  }

  lemma {:induction false} ActiveUpToFacts(db: Db, n: AttemptId)
    ensures forall a :: a in ActiveUpTo(db, n) <==> a in ActiveBelow(db, n)
    ensures |ActiveUpTo(db, n)| == |ActiveBelow(db, n)|
  {
    if n == 0 {
      assert ActiveBelow(db, 0) == {};
    } else {
      hide ActiveBelow, HoldsLease;
      ActiveUpToFacts(db, n - 1);
      ActiveBelowStep(db, n);
    }
  }

  ghost predicate LeaseIdsOk(db: Db) {
    forall a | a in db.leases :: 1 <= a <= db.lastAttempt
  }

  lemma ActiveIdsFacts(db: Db)
    requires LeaseIdsOk(db)
    ensures forall a :: a in ActiveIds(db) <==> a in ActiveSet(db)
    ensures |ActiveIds(db)| == |ActiveSet(db)|
  {
    ActiveUpToFacts(db, db.lastAttempt);
    assert ActiveBelow(db, db.lastAttempt) == ActiveSet(db);
  }

  function ActiveJobs(db: Db): set<JobId> {
    set a | a in ActiveSet(db) :: db.leases[a].job
  }

  /** Lease rows and unreleased leases are the same thing. */
  lemma ActiveRowFacts(db: Db)
    requires LeaseIdsOk(db)
    ensures |ActiveLeases(db)| == |ActiveSet(db)|
    ensures forall a | a in ActiveSet(db) :: LeaseRow(db, a) in ActiveLeases(db)
    ensures forall r | r in ActiveLeases(db) :: exists a :: a in ActiveSet(db) && r == LeaseRow(db, a)
  {
    ActiveIdsFacts(db);
    var ids, rows := ActiveIds(db), ActiveLeases(db);
    forall a | a in ActiveSet(db) ensures LeaseRow(db, a) in rows {
      assert a in ids;
      var i :| 0 <= i < |ids| && ids[i] == a;
      assert rows[i] == LeaseRow(db, a);
    }
    forall r | r in rows ensures exists a :: a in ActiveSet(db) && r == LeaseRow(db, a) {
      var i :| 0 <= i < |rows| && rows[i] == r;
      assert ids[i] in ids && ids[i] in ActiveSet(db);
    }
  }

  lemma ActiveJobsFacts(db: Db)
    requires LeaseIdsOk(db)
    ensures Jobs(ActiveLeases(db)) == ActiveJobs(db)
  {
    ActiveRowFacts(db);
    forall j | j in ActiveJobs(db) ensures j in Jobs(ActiveLeases(db)) {
      var a :| a in ActiveSet(db) && db.leases[a].job == j;
      assert LeaseRow(db, a) in ActiveLeases(db);
    }
  }

  lemma ActiveLimitsFacts(db: Db)
    requires LeaseIdsOk(db)
    ensures forall a | a in ActiveSet(db) :: db.leases[a].limit in Limits(ActiveLeases(db))
    ensures forall l | l in Limits(ActiveLeases(db)) :: exists a :: a in ActiveSet(db) && db.leases[a].limit == l
  {
    ActiveRowFacts(db);
    var rows := ActiveLeases(db);
    forall a | a in ActiveSet(db) ensures db.leases[a].limit in Limits(rows) {
      assert LeaseRow(db, a) in rows;
      var i :| 0 <= i < |rows| && rows[i] == LeaseRow(db, a);
      assert Limits(rows)[i] == db.leases[a].limit;
    }
    forall l | l in Limits(rows) ensures exists a :: a in ActiveSet(db) && db.leases[a].limit == l {
      var i :| 0 <= i < |rows| && Limits(rows)[i] == l;
      assert rows[i] in rows;
    }
  }

  // -------------------------------------------------------------------------
  // Attempts
  // -------------------------------------------------------------------------

  predicate IsLiveOf(db: Db, a: AttemptId, j: JobId) {
    a in db.attempts && db.attempts[a].job == j && !db.attempts[a].state.IsTerminal()
  }

  /** The newest live attempt of a job up to `n`. */
  function LatestLive(db: Db, j: JobId, n: AttemptId): (r: Option<AttemptId>)
    ensures r.Some? ==> IsLiveOf(db, r.value, j)
    ensures r.None? ==> forall a | 1 <= a <= n :: !IsLiveOf(db, a, j)
  {
    if n == 0 then None
    else if IsLiveOf(db, n, j) then Some(n)
    else LatestLive(db, j, n - 1)
  }

  function LiveAttempt(db: Db, j: JobId): (r: Option<AttemptId>)
    ensures r.Some? ==> IsLiveOf(db, r.value, j)
  {
    LatestLive(db, j, db.lastAttempt)
  }

  function AttemptsIn(db: Db, j: JobId, state: AttemptState): set<AttemptId> {
    set a | a in db.attempts && db.attempts[a].job == j && db.attempts[a].state == state
  }

  /** Attempts that ended by yielding; they do not use up the retry budget. */
  function YieldCount(db: Db, j: JobId): nat {
    |AttemptsIn(db, j, AttemptState.Yielded)|
  }

  // -------------------------------------------------------------------------
  // The reservation's frontier
  // -------------------------------------------------------------------------

  predicate BlockerAdvancing(db: Db, a: AttemptId) {
    HoldsLease(db, a) && a in db.attempts && db.attempts[a].state.IsAdvancing()
  }

  predicate AnyBlockersAdvancing(db: Db, blockers: set<AttemptId>) {
    exists a | a in blockers :: BlockerAdvancing(db, a)
  }

  datatype Frontier = OpenWindow | FreezePending(cutoff: nat) | Frozen(cutoff: nat)

  function BackfillFrontier(db: Db, res: Reservation): Frontier {
    if res.cutoff != UNFROZEN then Frozen(res.cutoff)
    else if AnyBlockersAdvancing(db, res.blockers) then OpenWindow
    else FreezePending(db.readySeq)
  }
}
