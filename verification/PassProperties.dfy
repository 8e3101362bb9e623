/**
 What one scheduling pass guarantees, for every active set, every eligible list
 and every persisted reservation. All statements are about `ScanPass`, which
 `Scheduler.PlanPass` computes.
 */
module PassProperties {
  import opened Domain
  import opened Scheduler

  function StartedJobs(starts: seq<Start>): set<JobId> {
    set s | s in starts :: s.job
  }

  /** Jobs started outside any bypass of `protected`. */
  function PlainJobs(starts: seq<Start>, protected: JobId): set<JobId> {
    set s | s in starts && s.bypasses != Some(protected) :: s.job
  }

  ghost predicate Distinct(starts: seq<Start>) {
    forall i, j | 0 <= i < j < |starts| :: starts[i].job != starts[j].job
  }

  ghost predicate AllListed(starts: seq<Start>, eligible: seq<Candidate>) {
    forall s | s in starts :: Listed(eligible, s.job)
  }

  /** The shadow set after the given starts. */
  ghost function Shadow(limits: seq<nat>, starts: seq<Start>, eligible: seq<Candidate>): seq<nat>
    requires AllListed(starts, eligible)
    decreases |starts|
  {
    if starts == [] then limits
    else
      assert starts[0] in starts;
      Shadow(limits + [Lookup(eligible, starts[0].job).limit], starts[1..], eligible)
  }

  /** Every start fits the set formed by what was active and all earlier starts. */
  ghost predicate Admitted(limits: seq<nat>, starts: seq<Start>, eligible: seq<Candidate>)
    requires AllListed(starts, eligible)
    decreases |starts|
  {
    starts == [] ||
    (assert starts[0] in starts;
     var l := Lookup(eligible, starts[0].job).limit;
     CanAdmit(limits, l) && Admitted(limits + [l], starts[1..], eligible))
  }

  /** No member of the set is over its declared limit. */
  ghost predicate WithinLimits(limits: seq<nat>) {
    forall l | l in limits :: |limits| <= l
  }

  /** A list of starts with one more in front. */
  lemma ConsStart(s: Start, rest: seq<Start>, protected: JobId)
    ensures forall x :: x in [s] + rest <==> x == s || x in rest
    ensures StartedJobs([s] + rest) == {s.job} + StartedJobs(rest)
    ensures s.bypasses != Some(protected) ==> PlainJobs([s] + rest, protected) == {s.job} + PlainJobs(rest, protected)
    ensures Distinct(rest) && s.job !in StartedJobs(rest) ==> Distinct([s] + rest)
  {
    var all := [s] + rest;
    assert all[0] == s && all[1..] == rest;
    if Distinct(rest) && s.job !in StartedJobs(rest) {
      forall i, j | 0 <= i < j < |all| ensures all[i].job != all[j].job {
        assert all[j] == rest[j - 1] && rest[j - 1] in rest;
        if i > 0 {
          assert all[i] == rest[i - 1];
        }
      }
    }
  }

  /** The protected job whose reservation is active once the pass is committed. */
  function Surviving(outcome: PassOutcome, reservation: Option<ReservationSnapshot>): Option<JobId> {
    if outcome.create.Some? then Some(outcome.create.value.job)
    else if reservation.Some? && !outcome.satisfy && outcome.invalidate.None? then Some(reservation.value.job)
    else None
  }

  // -------------------------------------------------------------------------
  // The backfill scan
  // -------------------------------------------------------------------------

  ghost predicate Part(cands: seq<Candidate>, eligible: seq<Candidate>) {
    forall c | c in cands :: c in eligible
  }

  lemma {:induction false} LookupEntry(eligible: seq<Candidate>, c: Candidate)
    requires UniqueJobs(eligible) && c in eligible
    ensures Listed(eligible, c.job) && Lookup(eligible, c.job) == c
  {
    var i :| 0 <= i < |eligible| && eligible[i] == c;
    LookupUnique(eligible, i);
  }

  /** Each backfill names the protected job, passes its gate and was unconsumed. */
  ghost predicate Bypass(s: Start, eligible: seq<Candidate>, gate: Gate, consumed: set<JobId>) {
    && s.bypasses == Some(gate.job) && s.job !in consumed
    && Listed(eligible, s.job) && gate.Passes(Lookup(eligible, s.job))
  }

  lemma {:induction false} BackfillFacts(limits: seq<nat>, cands: seq<Candidate>, eligible: seq<Candidate>, gate: Gate, consumed: set<JobId>)
    requires UniqueJobs(eligible) && Part(cands, eligible)
    ensures var starts := BackfillScan(limits, cands, gate, consumed);
            && (forall s | s in starts :: Bypass(s, eligible, gate, consumed))
            && AllListed(starts, eligible) && Distinct(starts) && Admitted(limits, starts, eligible)
    decreases |cands|
  {
    if cands != [] {
      var c := cands[0];
      assert c in cands;
      LookupEntry(eligible, c);
      if gate.Passes(c) && c.job !in consumed && CanAdmit(limits, c.limit) {
        BackfillFacts(limits + [c.limit], cands[1..], eligible, gate, consumed + {c.job});
        var starts := BackfillScan(limits, cands, gate, consumed);
        var rest := BackfillScan(limits + [c.limit], cands[1..], gate, consumed + {c.job});
        assert starts[1..] == rest;
        ConsStart(starts[0], rest, gate.job);
        assert forall s | s in rest :: Bypass(s, eligible, gate, consumed + {c.job});
      } else {
        BackfillFacts(limits, cands[1..], eligible, gate, consumed);
      }
    }
  }

  /** When the scan stops, no candidate that may still bypass fits. */
  lemma {:induction false} BackfillMaximal(limits: seq<nat>, cands: seq<Candidate>, eligible: seq<Candidate>, gate: Gate,
                                           consumed: set<JobId>, c: Candidate)
    requires UniqueJobs(eligible) && Part(cands, eligible)
    requires c in cands && gate.Passes(c) && c.job !in consumed
    ensures var starts := BackfillScan(limits, cands, gate, consumed);
            AllListed(starts, eligible) && (c.job !in StartedJobs(starts) ==> !CanAdmit(Shadow(limits, starts, eligible), c.limit))
    decreases |cands|
  {
    BackfillFacts(limits, cands, eligible, gate, consumed);
    var h := cands[0];
    assert h in cands;
    LookupEntry(eligible, h);
    if gate.Passes(h) && h.job !in consumed && CanAdmit(limits, h.limit) {
      var starts := BackfillScan(limits, cands, gate, consumed);
      var rest := BackfillScan(limits + [h.limit], cands[1..], gate, consumed + {h.job});
      assert starts[0] in starts && starts[1..] == rest;
      if c.job != h.job {
        assert c in cands[1..];
        BackfillMaximal(limits + [h.limit], cands[1..], eligible, gate, consumed + {h.job}, c);
        assert forall s | s in rest :: s in starts;
      }
    } else if c != h {
      assert c in cands[1..];
      BackfillMaximal(limits, cands[1..], eligible, gate, consumed, c);
    } else {
      BackfillFacts(limits, cands[1..], eligible, gate, consumed);
      ShadowBlocks(limits, BackfillScan(limits, cands, gate, consumed), eligible, c.limit);
    }
  }

  /** A job that does not fit does not fit after further starts either. */
  lemma {:induction false} ShadowBlocks(limits: seq<nat>, starts: seq<Start>, eligible: seq<Candidate>, limit: nat)
    requires AllListed(starts, eligible)
    requires !CanAdmit(limits, limit)
    ensures !CanAdmit(Shadow(limits, starts, eligible), limit)
    decreases |starts|
  {
    if starts != [] {
      assert starts[0] in starts;
      var l := Lookup(eligible, starts[0].job).limit;
      AdmitAntitone(limits, l, limit);
      ShadowBlocks(limits + [l], starts[1..], eligible, limit);
    }
  }

  /** A pass that starts anything leaves every member within its limit. */
  lemma {:induction false} AdmittedWithin(limits: seq<nat>, starts: seq<Start>, eligible: seq<Candidate>)
    requires AllListed(starts, eligible) && Admitted(limits, starts, eligible)
    ensures starts != [] ==> WithinLimits(Shadow(limits, starts, eligible))
    ensures WithinLimits(limits) ==> WithinLimits(Shadow(limits, starts, eligible))
    ensures |Shadow(limits, starts, eligible)| == |limits| + |starts|
    decreases |starts|
  {
    if starts != [] {
      assert starts[0] in starts;
      var l := Lookup(eligible, starts[0].job).limit;
      assert WithinLimits(limits + [l]);
      AdmittedWithin(limits + [l], starts[1..], eligible);
    }
  }

  // -------------------------------------------------------------------------
  // The scan without a reservation
  // -------------------------------------------------------------------------

  /** What a fresh plan promises about its starts... */
  ghost predicate FreshStarts(plan: Plan, limits: seq<nat>, cands: seq<Candidate>, eligible: seq<Candidate>) {
    && AllListed(plan.starts, eligible) && Distinct(plan.starts) && Admitted(limits, plan.starts, eligible)
    && (forall s | s in plan.starts :: Listed(cands, s.job))
    && (plan.create.None? ==> forall c | c in cands :: c.job in StartedJobs(plan.starts))
  }

  /** ...and about the reservation it creates. */
  ghost predicate FreshCreate(plan: Plan, jobs: set<JobId>, cands: seq<Candidate>, eligible: seq<Candidate>) {
    match plan.create
    case None => forall s | s in plan.starts :: s.bypasses.None?
    case Some(n) =>
      && Listed(cands, n.job) && Listed(eligible, n.job) && n.job !in StartedJobs(plan.starts)
      && n.initialConsumed == jobs + PlainJobs(plan.starts, n.job)
      && (forall s | s in plan.starts && s.bypasses.Some? ::
            Bypass(s, eligible, Gate(n.job, Lookup(eligible, n.job).priority, None), n.initialConsumed))
  }

  ghost predicate FreshPlan(plan: Plan, limits: seq<nat>, jobs: set<JobId>, cands: seq<Candidate>, eligible: seq<Candidate>) {
    FreshStarts(plan, limits, cands, eligible) && FreshCreate(plan, jobs, cands, eligible)
  }

  lemma {:induction false} FreshFacts(limits: seq<nat>, jobs: set<JobId>, cands: seq<Candidate>, eligible: seq<Candidate>)
    requires UniqueJobs(eligible) && UniqueJobs(cands) && Part(cands, eligible)
    ensures FreshPlan(FreshScan(limits, jobs, cands), limits, jobs, cands, eligible)
    decreases |cands|
  {
    if cands != [] {
      var c := cands[0];
      assert c in cands;
      LookupEntry(eligible, c);
      if CanAdmit(limits, c.limit) {
        FreshFacts(limits + [c.limit], jobs + {c.job}, cands[1..], eligible);
        var rest := FreshScan(limits + [c.limit], jobs + {c.job}, cands[1..]);
        TailListed(cands);
        FreshStartsStep(rest, limits, cands, eligible);
        FreshCreateStep(rest, jobs, cands, eligible);
      } else {
        FreshProtect(limits, jobs, cands, eligible);
      }
    }
  }

  lemma TailListed(cands: seq<Candidate>)
    requires UniqueJobs(cands) && cands != []
    ensures !Listed(cands[1..], cands[0].job) && Listed(cands, cands[0].job)
    ensures forall j | Listed(cands[1..], j) :: Listed(cands, j)
    ensures forall d | d in cands :: d == cands[0] || d in cands[1..]
  {
    assert cands[0] in cands;
    forall j | Listed(cands[1..], j) ensures Listed(cands, j) {
      var d :| d in cands[1..] && d.job == j;
      assert d in cands;
    }
  }

  lemma FreshStartsStep(rest: Plan, limits: seq<nat>, cands: seq<Candidate>, eligible: seq<Candidate>)
    requires cands != [] && CanAdmit(limits, cands[0].limit)
    requires Listed(eligible, cands[0].job) && Lookup(eligible, cands[0].job) == cands[0]
    requires !Listed(cands[1..], cands[0].job) && Listed(cands, cands[0].job)
    requires forall j | Listed(cands[1..], j) :: Listed(cands, j)
    requires forall d | d in cands :: d == cands[0] || d in cands[1..]
    requires FreshStarts(rest, limits + [cands[0].limit], cands[1..], eligible)
    ensures FreshStarts(Plan([Start(cands[0].job, None)] + rest.starts, rest.create), limits, cands, eligible)
  {
    var starts := [Start(cands[0].job, None)] + rest.starts;
    ConsStart(Start(cands[0].job, None), rest.starts, cands[0].job);
    assert starts[1..] == rest.starts;
  }

  lemma FreshCreateStep(rest: Plan, jobs: set<JobId>, cands: seq<Candidate>, eligible: seq<Candidate>)
    requires cands != []
    requires !Listed(cands[1..], cands[0].job)
    requires forall j | Listed(cands[1..], j) :: Listed(cands, j)
    requires FreshCreate(rest, jobs + {cands[0].job}, cands[1..], eligible)
    ensures FreshCreate(Plan([Start(cands[0].job, None)] + rest.starts, rest.create), jobs, cands, eligible)
  {
    var s := Start(cands[0].job, None);
    ConsStart(s, rest.starts, if rest.create.Some? then rest.create.value.job else 0);
    if rest.create.Some? {
      var n := rest.create.value;
      assert jobs + {s.job} + PlainJobs(rest.starts, n.job) == jobs + ({s.job} + PlainJobs(rest.starts, n.job));
    }
  }

  lemma FreshProtect(limits: seq<nat>, jobs: set<JobId>, cands: seq<Candidate>, eligible: seq<Candidate>)
    requires UniqueJobs(eligible) && UniqueJobs(cands) && Part(cands, eligible)
    requires cands != [] && !CanAdmit(limits, cands[0].limit)
    requires Listed(eligible, cands[0].job) && Lookup(eligible, cands[0].job) == cands[0]
    ensures FreshPlan(FreshScan(limits, jobs, cands), limits, jobs, cands, eligible)
  {
    var c := cands[0];
    var gate := Gate(c.job, c.priority, None);
    assert c in cands;
    BackfillFacts(limits, cands[1..], eligible, gate, jobs);
    var starts := BackfillScan(limits, cands[1..], gate, jobs);
    assert PlainJobs(starts, c.job) == {};
    BackfillListed(limits, cands[1..], gate, jobs);
    forall s | s in starts ensures Listed(cands, s.job) {
      assert Bypass(s, eligible, gate, jobs);
      var d :| d in cands[1..] && d.job == s.job;
      assert d in cands;
    }
  }

  lemma {:induction false} BackfillListed(limits: seq<nat>, cands: seq<Candidate>, gate: Gate, consumed: set<JobId>)
    ensures forall s | s in BackfillScan(limits, cands, gate, consumed) :: Listed(cands, s.job)
    decreases |cands|
  {
    if cands != [] {
      var c := cands[0];
      assert c in cands && forall d | d in cands[1..] :: d in cands;
      if gate.Passes(c) && c.job !in consumed && CanAdmit(limits, c.limit) {
        BackfillListed(limits + [c.limit], cands[1..], gate, consumed + {c.job});
      } else {
        BackfillListed(limits, cands[1..], gate, consumed);
      }
    }
  }

  lemma {:induction false} FreshMaximal(limits: seq<nat>, jobs: set<JobId>, cands: seq<Candidate>, eligible: seq<Candidate>)
    requires UniqueJobs(eligible) && UniqueJobs(cands) && Part(cands, eligible)
    requires FreshScan(limits, jobs, cands).create.Some?
    ensures var plan := FreshScan(limits, jobs, cands);
            var n := plan.create.value;
            && AllListed(plan.starts, eligible) && Listed(eligible, n.job)
            && !CanAdmit(Shadow(limits, plan.starts, eligible), Lookup(eligible, n.job).limit)
            && forall c | c in cands && c.priority == Lookup(eligible, n.job).priority && c.job != n.job
                          && c.job !in n.initialConsumed && c.job !in StartedJobs(plan.starts) ::
                 !CanAdmit(Shadow(limits, plan.starts, eligible), c.limit)
    decreases |cands|
  {
    FreshFacts(limits, jobs, cands, eligible);
    var h := cands[0];
    assert h in cands;
    LookupEntry(eligible, h);
    var plan := FreshScan(limits, jobs, cands);
    if CanAdmit(limits, h.limit) {
      var rest := FreshScan(limits + [h.limit], jobs + {h.job}, cands[1..]);
      assert plan.starts[1..] == rest.starts;
      ConsStart(Start(h.job, None), rest.starts, h.job);
      TailListed(cands);
      FreshMaximal(limits + [h.limit], jobs + {h.job}, cands[1..], eligible);
    } else {
      var gate := Gate(h.job, h.priority, None);
      BackfillFacts(limits, cands[1..], eligible, gate, jobs);
      ShadowBlocks(limits, plan.starts, eligible, h.limit);
      forall c | c in cands && c.priority == h.priority && c.job != h.job && c.job !in jobs && c.job !in StartedJobs(plan.starts)
        ensures !CanAdmit(Shadow(limits, plan.starts, eligible), c.limit)
      {
        assert c in cands[1..] && gate.Passes(c);
        BackfillMaximal(limits, cands[1..], eligible, gate, jobs, c);
      }
    }
  }

  // -------------------------------------------------------------------------
  // The pass
  // -------------------------------------------------------------------------

  lemma {:induction false} WithoutFacts(cands: seq<Candidate>, gone: set<JobId>)
    requires UniqueJobs(cands)
    ensures UniqueJobs(Without(cands, gone))
    ensures forall c :: c in Without(cands, gone) <==> c in cands && c.job !in gone
  {
    if cands != [] {
      WithoutFacts(cands[1..], gone);
      var rest := Without(cands[1..], gone);
      assert forall c :: c in cands <==> c == cands[0] || c in cands[1..];
      if cands[0].job !in gone {
        assert Without(cands, gone) == [cands[0]] + rest;
        assert forall i | 0 <= i < |rest| :: rest[i] in cands[1..];
      }
    }
  }

  /** Every start is a distinct eligible job that fits next to everything active
      and everything started before it; a pass with a start ends within every limit. */
  lemma PassAdmits(active: seq<ActiveLease>, eligible: seq<Candidate>, reservation: Option<ReservationSnapshot>)
    requires UniqueJobs(eligible)
    ensures var starts := ScanPass(active, eligible, reservation).starts;
            && AllListed(starts, eligible) && Distinct(starts) && Admitted(Limits(active), starts, eligible)
            && |Shadow(Limits(active), starts, eligible)| == |active| + |starts|
            && (starts != [] ==> WithinLimits(Shadow(Limits(active), starts, eligible)))
  {
    var limits, jobs := Limits(active), Jobs(active);
    var outcome := ScanPass(active, eligible, reservation);
    if reservation.None? || Obstacle(eligible, reservation).Some? {
      FreshFacts(limits, jobs, eligible, eligible);
    } else {
      var p := Lookup(eligible, reservation.value.job);
      if CanAdmit(limits, p.limit) {
        var rest := Without(eligible, {p.job});
        WithoutFacts(eligible, {p.job});
        FreshFacts(limits + [p.limit], jobs + {p.job}, rest, eligible);
        assert outcome.starts[0] in outcome.starts;
        assert outcome.starts[1..] == FreshScan(limits + [p.limit], jobs + {p.job}, rest).starts;
      } else {
        BackfillFacts(limits, eligible, eligible, Gate(p.job, p.priority, reservation.value.cutoff), reservation.value.consumed);
      }
    }
    AdmittedWithin(limits, outcome.starts, eligible);
  }

  /** The reservation a bypass is charged to, as it stands after the pass. */
  function ChargedSet(outcome: PassOutcome, reservation: Option<ReservationSnapshot>): set<JobId> {
    if outcome.create.Some? then outcome.create.value.initialConsumed
    else if reservation.Some? then reservation.value.consumed
    else {}
  }

  /** The frontier bypasses are held to. */
  function ChargedCutoff(outcome: PassOutcome, reservation: Option<ReservationSnapshot>): Option<int> {
    if outcome.create.None? && reservation.Some? then reservation.value.cutoff else None
  }

  /** What the coordinator needs to resolve and create reservations without an error. */
  ghost predicate ReservationsCommit(outcome: PassOutcome, active: seq<ActiveLease>, eligible: seq<Candidate>,
                                     reservation: Option<ReservationSnapshot>) {
    // The old reservation is satisfied or invalidated, never both, and only if there was one.
    && (outcome.satisfy || outcome.invalidate.Some? ==> reservation.Some?)
    && !(outcome.satisfy && outcome.invalidate.Some?)
    // Satisfaction is the first start of the pass; otherwise a surviving protected job does not start.
    && (outcome.satisfy ==> outcome.starts != [] && outcome.starts[0] == Start(reservation.value.job, None))
    && (var job := Surviving(outcome, reservation);
        job.Some? ==> Listed(eligible, job.value) && job.value !in StartedJobs(outcome.starts))
    // A reservation is created only where none survives, and its initial consumers
    // are exactly the jobs of its initial blockers.
    && (outcome.create.Some? ==>
          && (reservation.None? || outcome.satisfy || outcome.invalidate.Some?)
          && outcome.create.value.initialConsumed == Jobs(active) + PlainJobs(outcome.starts, outcome.create.value.job))
  }

  /** What the coordinator needs to charge every bypass. */
  ghost predicate BypassesCommit(outcome: PassOutcome, eligible: seq<Candidate>, reservation: Option<ReservationSnapshot>) {
    var job := Surviving(outcome, reservation);
    // Every bypass is charged to the surviving reservation, at its priority and inside its frontier.
    && (forall s | s in outcome.starts && s.bypasses.Some? ::
          && job.Some? && Listed(eligible, job.value)
          && Bypass(s, eligible, Gate(job.value, Lookup(eligible, job.value).priority, ChargedCutoff(outcome, reservation)),
                    ChargedSet(outcome, reservation)))
    // While an old reservation survives, nothing starts except by bypassing it.
    && (outcome.create.None? && job.Some? ==> forall s | s in outcome.starts :: s.bypasses.Some?)
  }

  lemma PassCommits(active: seq<ActiveLease>, eligible: seq<Candidate>, reservation: Option<ReservationSnapshot>)
    requires UniqueJobs(eligible)
    ensures ReservationsCommit(ScanPass(active, eligible, reservation), active, eligible, reservation)
    ensures BypassesCommit(ScanPass(active, eligible, reservation), eligible, reservation)
  {
    var limits, jobs := Limits(active), Jobs(active);
    if reservation.None? || Obstacle(eligible, reservation).Some? {
      FreshFacts(limits, jobs, eligible, eligible);
    } else {
      var p := Lookup(eligible, reservation.value.job);
      if CanAdmit(limits, p.limit) {
        PassCommitsSatisfied(active, eligible, reservation);
      } else {
        BackfillFacts(limits, eligible, eligible, Gate(p.job, p.priority, reservation.value.cutoff), reservation.value.consumed);
      }
    }
  }

  lemma PassCommitsSatisfied(active: seq<ActiveLease>, eligible: seq<Candidate>, reservation: Option<ReservationSnapshot>)
    requires UniqueJobs(eligible)
    requires reservation.Some? && Obstacle(eligible, reservation).None?
    requires CanAdmit(Limits(active), Lookup(eligible, reservation.value.job).limit)
    ensures ReservationsCommit(ScanPass(active, eligible, reservation), active, eligible, reservation)
    ensures BypassesCommit(ScanPass(active, eligible, reservation), eligible, reservation)
  {
    var limits, jobs := Limits(active), Jobs(active);
    var p := Lookup(eligible, reservation.value.job);
    var rest := Without(eligible, {p.job});
    WithoutFacts(eligible, {p.job});
    FreshFacts(limits + [p.limit], jobs + {p.job}, rest, eligible);
    var plan := FreshScan(limits + [p.limit], jobs + {p.job}, rest);
    var s := Start(p.job, None);
    ConsStart(s, plan.starts, if plan.create.Some? then plan.create.value.job else 0);
    assert !Listed(rest, p.job);
    if plan.create.Some? {
      var n := plan.create.value;
      assert jobs + {s.job} + PlainJobs(plan.starts, n.job) == jobs + ({s.job} + PlainJobs(plan.starts, n.job));
    }
  }

  /** Greedy maximality: either every eligible job started, or the surviving
      protected job does not fit and neither does any unconsumed job of its
      priority inside the frontier. */
  lemma PassMaximal(active: seq<ActiveLease>, eligible: seq<Candidate>, reservation: Option<ReservationSnapshot>)
    requires UniqueJobs(eligible)
    ensures var outcome := ScanPass(active, eligible, reservation);
            var surviving := Surviving(outcome, reservation);
            && AllListed(outcome.starts, eligible)
            && (surviving.None? ==> forall c | c in eligible :: c.job in StartedJobs(outcome.starts))
            && (surviving.Some? ==>
                  && Listed(eligible, surviving.value)
                  && var shadow := Shadow(Limits(active), outcome.starts, eligible);
                     var gate := Gate(surviving.value, Lookup(eligible, surviving.value).priority, ChargedCutoff(outcome, reservation));
                     && !CanAdmit(shadow, Lookup(eligible, surviving.value).limit)
                     && forall c | c in eligible && gate.Passes(c) && c.job !in ChargedSet(outcome, reservation)
                                   && c.job !in StartedJobs(outcome.starts) ::
                          !CanAdmit(shadow, c.limit))
  {
    PassAdmits(active, eligible, reservation);
    PassCommits(active, eligible, reservation);
    var limits, jobs := Limits(active), Jobs(active);
    var outcome := ScanPass(active, eligible, reservation);
    if reservation.None? || Obstacle(eligible, reservation).Some? {
      FreshFacts(limits, jobs, eligible, eligible);
      if outcome.create.Some? {
        FreshMaximal(limits, jobs, eligible, eligible);
      }
    } else {
      var p := Lookup(eligible, reservation.value.job);
      if CanAdmit(limits, p.limit) {
        PassMaximalSatisfied(active, eligible, reservation);
      } else {
        ShadowBlocks(limits, outcome.starts, eligible, p.limit);
        forall c | c in eligible && Gate(p.job, p.priority, reservation.value.cutoff).Passes(c) && c.job !in reservation.value.consumed
                   && c.job !in StartedJobs(outcome.starts)
          ensures !CanAdmit(Shadow(limits, outcome.starts, eligible), c.limit)
        {
          BackfillMaximal(limits, eligible, eligible, Gate(p.job, p.priority, reservation.value.cutoff), reservation.value.consumed, c);
        }
      }
    }
  }

  lemma PassMaximalSatisfied(active: seq<ActiveLease>, eligible: seq<Candidate>, reservation: Option<ReservationSnapshot>)
    requires UniqueJobs(eligible)
    requires reservation.Some? && Obstacle(eligible, reservation).None?
    requires CanAdmit(Limits(active), Lookup(eligible, reservation.value.job).limit)
    ensures var outcome := ScanPass(active, eligible, reservation);
            && AllListed(outcome.starts, eligible)
            && (outcome.create.None? ==> forall c | c in eligible :: c.job in StartedJobs(outcome.starts))
            && (outcome.create.Some? ==>
                  && Listed(eligible, outcome.create.value.job)
                  && var n := outcome.create.value;
                     var shadow := Shadow(Limits(active), outcome.starts, eligible);
                     && !CanAdmit(shadow, Lookup(eligible, n.job).limit)
                     && forall c | c in eligible && c.priority == Lookup(eligible, n.job).priority && c.job != n.job
                                   && c.job !in n.initialConsumed && c.job !in StartedJobs(outcome.starts) ::
                          !CanAdmit(shadow, c.limit))
  {
    PassAdmits(active, eligible, reservation);
    var limits, jobs := Limits(active), Jobs(active);
    var outcome := ScanPass(active, eligible, reservation);
    var p := Lookup(eligible, reservation.value.job);
    var rest := Without(eligible, {p.job});
    WithoutFacts(eligible, {p.job});
    FreshFacts(limits + [p.limit], jobs + {p.job}, rest, eligible);
    var plan := FreshScan(limits + [p.limit], jobs + {p.job}, rest);
    assert outcome.starts[1..] == plan.starts;
    ConsStart(Start(p.job, None), plan.starts, p.job);
    if plan.create.Some? {
      FreshMaximal(limits + [p.limit], jobs + {p.job}, rest, eligible);
    }
  }

  // -------------------------------------------------------------------------
  // Order
  // -------------------------------------------------------------------------

  /** Nothing of strictly higher priority than a start is left behind; and unless the start bypasses
      somebody, nothing of equal priority that was ready earlier. */
  ghost predicate InOrder(starts: seq<Start>, s: Start, d: Candidate, c: Candidate) {
    && (c.priority > d.priority ==> c.job in StartedJobs(starts))
    && (s.bypasses.None? && c.priority == d.priority && c.readySeq < d.readySeq ==> c.job in StartedJobs(starts))
  }

  lemma HeadFirst(cands: seq<Candidate>, c: Candidate)
    requires Ranked(cands) && c in cands
    ensures c == cands[0] || (c in cands[1..] && (cands[0].priority > c.priority
                                                  || (cands[0].priority == c.priority && cands[0].readySeq < c.readySeq)))
  {
    var i :| 0 <= i < |cands| && cands[i] == c;
    assert i > 0 ==> Before(cands[0], cands[i]) && cands[1..][i - 1] == c;
  }

  lemma {:induction false} FreshOrder(limits: seq<nat>, jobs: set<JobId>, cands: seq<Candidate>, s: Start, d: Candidate, c: Candidate)
    requires UniqueJobs(cands) && Ranked(cands)
    requires s in FreshScan(limits, jobs, cands).starts && d in cands && d.job == s.job && c in cands
    ensures InOrder(FreshScan(limits, jobs, cands).starts, s, d, c)
    decreases |cands|
  {
    var head := cands[0];
    HeadFirst(cands, c);
    HeadFirst(cands, d);
    if CanAdmit(limits, head.limit) {
      var rest := FreshScan(limits + [head.limit], jobs + {head.job}, cands[1..]);
      ConsStart(Start(head.job, None), rest.starts, 0);
      if s != Start(head.job, None) {
        assert d in cands[1..] by {
          FreshListed(limits + [head.limit], jobs + {head.job}, cands[1..], s);
          TailListed(cands);
        }
        if c != head {
          FreshOrder(limits + [head.limit], jobs + {head.job}, cands[1..], s, d, c);
        }
      } else {
        assert d == head by {
          TailListed(cands);
        }
      }
    } else {
      BackfillFacts(limits, cands[1..], cands, Gate(head.job, head.priority, None), jobs);
      LookupEntry(cands, d);
      assert Bypass(s, cands, Gate(head.job, head.priority, None), jobs);
    }
  }

  lemma {:induction false} FreshListed(limits: seq<nat>, jobs: set<JobId>, cands: seq<Candidate>, s: Start)
    requires s in FreshScan(limits, jobs, cands).starts
    ensures Listed(cands, s.job)
    decreases |cands|
  {
    var head := cands[0];
    assert head in cands;
    if CanAdmit(limits, head.limit) {
      var rest := FreshScan(limits + [head.limit], jobs + {head.job}, cands[1..]);
      ConsStart(Start(head.job, None), rest.starts, 0);
      if s != Start(head.job, None) {
        FreshListed(limits + [head.limit], jobs + {head.job}, cands[1..], s);
      }
    } else {
      BackfillListed(limits, cands[1..], Gate(head.job, head.priority, None), jobs);
    }
    if Listed(cands[1..], s.job) {
      var e :| e in cands[1..] && e.job == s.job;
      assert e in cands;
    }
  }

  lemma {:induction false} WithoutRanked(cands: seq<Candidate>, gone: set<JobId>)
    requires Ranked(cands)
    ensures Ranked(Without(cands, gone))
  {
    if cands != [] {
      WithoutRanked(cands[1..], gone);
      if cands[0].job !in gone {
        var rest := Without(cands[1..], gone);
        forall i | 0 <= i < |rest| ensures Before(cands[0], rest[i]) {
          assert rest[i] in rest;
          WithoutMembers(cands[1..], gone, rest[i]);
          var k :| 0 <= k < |cands[1..]| && cands[1..][k] == rest[i];
          assert cands[k + 1] == rest[i];
        }
      }
    }
  }

  lemma {:induction false} WithoutMembers(cands: seq<Candidate>, gone: set<JobId>, c: Candidate)
    ensures c in Without(cands, gone) <==> c in cands && c.job !in gone
  {
    if cands != [] {
      WithoutMembers(cands[1..], gone, c);
      assert c in cands <==> c == cands[0] || c in cands[1..];
    }
  }

  /** A pass respects priority, and first come first served inside a priority: a start leaves no eligible
      job of higher priority behind; a start that bypasses nobody, the job the reservation protected
      apart, leaves none of its own priority behind that was ready earlier. */
  lemma PassOrder(active: seq<ActiveLease>, eligible: seq<Candidate>, reservation: Option<ReservationSnapshot>, s: Start, d: Candidate, c: Candidate)
    requires UniqueJobs(eligible) && Ranked(eligible)
    requires s in ScanPass(active, eligible, reservation).starts && d in eligible && d.job == s.job && c in eligible
    ensures var starts := ScanPass(active, eligible, reservation).starts;
            && (c.priority > d.priority ==> c.job in StartedJobs(starts))
            && (s.bypasses.None? && (reservation.None? || s.job != reservation.value.job) && c.priority == d.priority && c.readySeq < d.readySeq
                ==> c.job in StartedJobs(starts))
  {
    var limits, jobs := Limits(active), Jobs(active);
    if reservation.None? || Obstacle(eligible, reservation).Some? {
      FreshOrder(limits, jobs, eligible, s, d, c);
    } else {
      var p := Lookup(eligible, reservation.value.job);
      HeadFirst(eligible, c);
      LookupEntry(eligible, d);
      if CanAdmit(limits, p.limit) {
        PassOrderSatisfied(limits, jobs, eligible, p, s, d, c);
      } else {
        var gate := Gate(p.job, p.priority, reservation.value.cutoff);
        BackfillFacts(limits, eligible, eligible, gate, reservation.value.consumed);
        assert Bypass(s, eligible, gate, reservation.value.consumed);
      }
    }
  }

  lemma PassOrderSatisfied(limits: seq<nat>, jobs: set<JobId>, eligible: seq<Candidate>, p: Candidate, s: Start, d: Candidate, c: Candidate)
    requires UniqueJobs(eligible) && Ranked(eligible) && p in eligible && d in eligible && d.job == s.job && c in eligible
    requires c.priority <= p.priority
    requires var plan := FreshScan(limits + [p.limit], jobs + {p.job}, Without(eligible, {p.job}));
             s in [Start(p.job, None)] + plan.starts
    ensures var plan := FreshScan(limits + [p.limit], jobs + {p.job}, Without(eligible, {p.job}));
            s.job != p.job || c.priority > d.priority ==> InOrder([Start(p.job, None)] + plan.starts, s, d, c)
  {
    var rest := Without(eligible, {p.job});
    var plan := FreshScan(limits + [p.limit], jobs + {p.job}, rest);
    ConsStart(Start(p.job, None), plan.starts, 0);
    LookupEntry(eligible, d);
    LookupEntry(eligible, p);
    if s.job != p.job && c.job != p.job {
      WithoutFacts(eligible, {p.job});
      WithoutRanked(eligible, {p.job});
      WithoutMembers(eligible, {p.job}, c);
      WithoutMembers(eligible, {p.job}, d);
      FreshOrder(limits + [p.limit], jobs + {p.job}, rest, s, d, c);
    }
  }
}
