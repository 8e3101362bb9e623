/**
 The admission formula and one greedy scheduling pass.

 `PlanPass` is the loop: after every start it looks again from the front of the
 eligible list. `ScanPass` is the reference: a single left-to-right recursion that
 never looks back. The method is proved equal to the reference, and what the
 coordinator relies on is proved about the reference.
 */
module Scheduler {
  import opened Domain

  datatype ActiveLease = ActiveLease(job: JobId, limit: nat)

  datatype Candidate = Candidate(job: JobId, readySeq: int, limit: nat, priority: int)

  /** The persisted reservation; `cutoff` is None while the backfill window is open. */
  datatype ReservationSnapshot = ReservationSnapshot(job: JobId, cutoff: Option<int>, consumed: set<JobId>)

  datatype Start = Start(job: JobId, bypasses: Option<JobId>)

  datatype NewReservation = NewReservation(job: JobId, initialConsumed: set<JobId>)

  datatype Invalidation = NoLongerEligible | Superseded

  datatype PassOutcome = PassOutcome(
    starts: seq<Start>,
    satisfy: bool,
    invalidate: Option<Invalidation>,
    create: Option<NewReservation>)

  /** A candidate may join `limits` exactly when the resulting count respects
      every declared limit, its own included. */
  predicate CanAdmit(limits: seq<nat>, limit: nat) {
    |limits| + 1 <= limit && forall l | l in limits :: |limits| + 1 <= l
  }

  function Limits(active: seq<ActiveLease>): (r: seq<nat>)
    ensures |r| == |active| && forall i | 0 <= i < |r| :: r[i] == active[i].limit
  {
    seq(|active|, i requires 0 <= i < |active| => active[i].limit)
  }

  function Jobs(active: seq<ActiveLease>): set<JobId> {
    set l | l in active :: l.job
  }

  predicate UniqueJobs(cands: seq<Candidate>) {
    forall i, j | 0 <= i < j < |cands| :: cands[i].job != cands[j].job
  }

  /** Descending priority, then ascending readiness. */
  predicate Ranked(cands: seq<Candidate>) {
    forall i, j | 0 <= i < j < |cands| :: Before(cands[i], cands[j])
  }

  predicate Before(a: Candidate, b: Candidate) {
    a.priority > b.priority || (a.priority == b.priority && a.readySeq < b.readySeq)
  }

  predicate Listed(cands: seq<Candidate>, job: JobId) {
    exists c :: c in cands && c.job == job
  }

  /** The entry of `job`, found from the front. */
  function Lookup(cands: seq<Candidate>, job: JobId): (c: Candidate)
    requires Listed(cands, job)
    ensures c in cands && c.job == job
  {
    if cands[0].job == job then cands[0]
    else
      assert cands == [cands[0]] + cands[1..];
      Lookup(cands[1..], job)
  }

  /** What a reservation demands of a backfill, its single bypass apart. */
  datatype Gate = Gate(job: JobId, priority: int, cutoff: Option<int>) {
    predicate Passes(c: Candidate) {
      (cutoff.None? || c.readySeq <= cutoff.value) && c.job != job && c.priority == priority
    }
  }

  // -------------------------------------------------------------------------
  // The reference: one left-to-right scan
  // -------------------------------------------------------------------------

  /** Backfills admitted past a protected job, in scan order. */
  function BackfillScan(limits: seq<nat>, cands: seq<Candidate>, gate: Gate, consumed: set<JobId>): seq<Start>
    decreases |cands|
  {
    if cands == [] then []
    else
      var c := cands[0];
      if gate.Passes(c) && c.job !in consumed && CanAdmit(limits, c.limit) then
        [Start(c.job, Some(gate.job))] + BackfillScan(limits + [c.limit], cands[1..], gate, consumed + {c.job})
      else
        BackfillScan(limits, cands[1..], gate, consumed)
  }

  datatype Plan = Plan(starts: seq<Start>, create: Option<NewReservation>)

  /** Without a reservation the head starts or becomes protected, and the rest
      of the list may only backfill past it. */
  function FreshScan(limits: seq<nat>, jobs: set<JobId>, cands: seq<Candidate>): Plan
    decreases |cands|
  {
    if cands == [] then Plan([], None)
    else
      var c := cands[0];
      if CanAdmit(limits, c.limit) then
        var rest := FreshScan(limits + [c.limit], jobs + {c.job}, cands[1..]);
        Plan([Start(c.job, None)] + rest.starts, rest.create)
      else
        Plan(BackfillScan(limits, cands[1..], Gate(c.job, c.priority, None), jobs),
             Some(NewReservation(c.job, jobs)))
  }

  function Without(cands: seq<Candidate>, gone: set<JobId>): seq<Candidate> {
    if cands == [] then []
    else if cands[0].job in gone then Without(cands[1..], gone)
    else [cands[0]] + Without(cands[1..], gone)
  }

  /** Why a persisted reservation does not survive to planning, if it does not. */
  function Obstacle(eligible: seq<Candidate>, reservation: Option<ReservationSnapshot>): Option<Invalidation> {
    if reservation.None? then None
    else if !Listed(eligible, reservation.value.job) then Some(NoLongerEligible)
    else if eligible[0].priority > Lookup(eligible, reservation.value.job).priority then Some(Superseded)
    else None
  }

  function ScanPass(active: seq<ActiveLease>, eligible: seq<Candidate>, reservation: Option<ReservationSnapshot>): PassOutcome {
    var limits, jobs := Limits(active), Jobs(active);
    var obstacle := Obstacle(eligible, reservation);
    if reservation.None? || obstacle.Some? then
      var plan := FreshScan(limits, jobs, eligible);
      PassOutcome(plan.starts, false, obstacle, plan.create)
    else
      var r := reservation.value;
      var p := Lookup(eligible, r.job);
      if CanAdmit(limits, p.limit) then
        var plan := FreshScan(limits + [p.limit], jobs + {p.job}, Without(eligible, {p.job}));
        PassOutcome([Start(p.job, None)] + plan.starts, true, None, plan.create)
      else
        PassOutcome(BackfillScan(limits, eligible, Gate(p.job, p.priority, r.cutoff), r.consumed), false, None, None)
  }

  // -------------------------------------------------------------------------
  // The loop of the source
  // -------------------------------------------------------------------------

  /** The pass's own view of the reservation; `existing` tells the persisted one
      from one created earlier in the same pass. */
  datatype Res = Res(job: JobId, cutoff: Option<int>, consumed: set<JobId>, existing: bool)

  method FindUnstarted(eligible: seq<Candidate>, started: set<JobId>) returns (i: nat)
    ensures i <= |eligible|
    ensures forall k | 0 <= k < i :: eligible[k].job in started
    ensures i < |eligible| ==> eligible[i].job !in started
  {
    i := 0;
    while i < |eligible| && eligible[i].job in started
      invariant i <= |eligible|
      invariant forall k | 0 <= k < i :: eligible[k].job in started
    {
      i := i + 1;
    }
  }

  predicate MayBackfill(c: Candidate, limits: seq<nat>, gate: Gate, consumed: set<JobId>, started: set<JobId>) {
    gate.Passes(c) && c.job !in consumed && c.job !in started && CanAdmit(limits, c.limit)
  }

  method FindBackfill(eligible: seq<Candidate>, limits: seq<nat>, gate: Gate, consumed: set<JobId>, started: set<JobId>)
    returns (i: nat)
    ensures i <= |eligible|
    ensures forall k | 0 <= k < i :: !MayBackfill(eligible[k], limits, gate, consumed, started)
    ensures i < |eligible| ==> MayBackfill(eligible[i], limits, gate, consumed, started)
  {
    i := 0;
    while i < |eligible| && !MayBackfill(eligible[i], limits, gate, consumed, started)
      invariant i <= |eligible|
      invariant forall k | 0 <= k < i :: !MayBackfill(eligible[k], limits, gate, consumed, started)
    {
      i := i + 1;
    }
  }

  /** What is still to come from a loop state, by the reference. */
  ghost function Remaining(eligible: seq<Candidate>, limits: seq<nat>, jobs: set<JobId>, started: set<JobId>, res: Option<Res>): PassOutcome
    requires res.Some? ==> Listed(eligible, res.value.job)
  {
    match res
    case None =>
      var plan := FreshScan(limits, jobs, Without(eligible, started));
      PassOutcome(plan.starts, false, None, plan.create)
    case Some(r) =>
      var p := Lookup(eligible, r.job);
      if CanAdmit(limits, p.limit) then
        var plan := FreshScan(limits + [p.limit], jobs + {p.job}, Without(eligible, started + {p.job}));
        PassOutcome([Start(p.job, None)] + plan.starts, true, None, plan.create)
      else
        PassOutcome(BackfillScan(limits, eligible, Gate(p.job, p.priority, r.cutoff), r.consumed), false, None, None)
  }

  ghost function Joined(sofar: PassOutcome, rest: PassOutcome): PassOutcome {
    PassOutcome(sofar.starts + rest.starts, sofar.satisfy || rest.satisfy, sofar.invalidate,
                if sofar.create.Some? then sofar.create else rest.create)
  }

  /** The loop state stands in for the reference outcome. */
  ghost predicate OnTrack(final: PassOutcome, outcome: PassOutcome, eligible: seq<Candidate>,
                          limits: seq<nat>, jobs: set<JobId>, started: set<JobId>, res: Option<Res>) {
    && (res.Some? ==> Listed(eligible, res.value.job) && res.value.job !in started && started <= res.value.consumed)
    // The shadow set only grows, so a protected job that did not fit never will.
    && (res.Some? && (started != {} || !res.value.existing) ==> !CanAdmit(limits, Lookup(eligible, res.value.job).limit))
    && (res.None? || res.value.existing ==> outcome.create.None?)
    && started <= jobs
    && final == Joined(outcome, Remaining(eligible, limits, jobs, started, res))
  }

  /** `plan_pass`. Job ids come from a primary key, so no job is listed twice. */
  method PlanPass(active: seq<ActiveLease>, eligible: seq<Candidate>, reservation: Option<ReservationSnapshot>)
    returns (outcome: PassOutcome)
    requires UniqueJobs(eligible)
    ensures outcome == ScanPass(active, eligible, reservation)
  {
    outcome := PassOutcome([], false, None, None);
    var shadowLimits := Limits(active);
    var shadowJobs := Jobs(active);
    var started: set<JobId> := {};
    var res: Option<Res> := None;
    if reservation.Some? {
      res := Some(Res(reservation.value.job, reservation.value.cutoff, reservation.value.consumed, true));
    }
    if res.Some? && !Listed(eligible, res.value.job) {
      outcome := outcome.(invalidate := Some(NoLongerEligible));
      res := None;
    }
    if res.Some? {
      var protected := Lookup(eligible, res.value.job);
      if eligible[0].priority > protected.priority {
        outcome := outcome.(invalidate := Some(Superseded));
        res := None;
      }
    }
    ghost var final := ScanPass(active, eligible, reservation);
    TrackEntry(active, eligible, reservation, outcome, res);
    while true
      invariant OnTrack(final, outcome, eligible, shadowLimits, shadowJobs, started, res)
      decreases |Without(eligible, started)|, if res.None? then 1 else 0
    {
      if res.Some? {
        var r := res.value;
        var protected := Lookup(eligible, r.job);
        if CanAdmit(shadowLimits, protected.limit) {
          assert r.existing;
          WithoutOneMore(eligible, started, protected);
          TrackSatisfied(final, outcome, eligible, shadowLimits, shadowJobs, started, r);
          outcome := outcome.(starts := outcome.starts + [Start(protected.job, None)], satisfy := true);
          started := started + {protected.job};
          shadowLimits := shadowLimits + [protected.limit];
          shadowJobs := shadowJobs + {protected.job};
          res := None;
        } else {
          var i := FindBackfill(eligible, shadowLimits, Gate(r.job, protected.priority, r.cutoff), r.consumed, started);
          if i == |eligible| {
            TrackExhausted(final, outcome, eligible, shadowLimits, shadowJobs, started, r);
            break;
          }
          var c := eligible[i];
          WithoutOneMore(eligible, started, c);
          TrackBackfill(final, outcome, eligible, shadowLimits, shadowJobs, started, r, i);
          outcome := outcome.(starts := outcome.starts + [Start(c.job, Some(r.job))]);
          started := started + {c.job};
          shadowLimits := shadowLimits + [c.limit];
          shadowJobs := shadowJobs + {c.job};
          res := Some(r.(consumed := r.consumed + {c.job}));
        }
      } else {
        var i := FindUnstarted(eligible, started);
        if i == |eligible| {
          WithoutFront(eligible, started, i);
          break;
        }
        var head := eligible[i];
        if CanAdmit(shadowLimits, head.limit) {
          WithoutOneMore(eligible, started, head);
          TrackHead(final, outcome, eligible, shadowLimits, shadowJobs, started, i);
          outcome := outcome.(starts := outcome.starts + [Start(head.job, None)]);
          started := started + {head.job};
          shadowLimits := shadowLimits + [head.limit];
          shadowJobs := shadowJobs + {head.job};
        } else {
          TrackProtect(final, outcome, eligible, shadowLimits, shadowJobs, started, i);
          outcome := outcome.(create := Some(NewReservation(head.job, shadowJobs)));
          res := Some(Res(head.job, None, shadowJobs, false));
        }
      }
    }
  }

  lemma TrackEntry(active: seq<ActiveLease>, eligible: seq<Candidate>, reservation: Option<ReservationSnapshot>,
                   outcome: PassOutcome, res: Option<Res>)
    requires outcome == PassOutcome([], false, Obstacle(eligible, reservation), None)
    requires res == if reservation.None? || outcome.invalidate.Some? then None
                    else Some(Res(reservation.value.job, reservation.value.cutoff, reservation.value.consumed, true))
    ensures OnTrack(ScanPass(active, eligible, reservation), outcome, eligible, Limits(active), Jobs(active), {}, res)
  {
    WithoutNothing(eligible);
    if res.Some? {
      assert {} + {res.value.job} == {res.value.job};
    }
  }

  lemma TrackExhausted(final: PassOutcome, outcome: PassOutcome, eligible: seq<Candidate>,
                       limits: seq<nat>, jobs: set<JobId>, started: set<JobId>, r: Res)
    requires OnTrack(final, outcome, eligible, limits, jobs, started, Some(r))
    requires !CanAdmit(limits, Lookup(eligible, r.job).limit)
    requires var gate := Gate(r.job, Lookup(eligible, r.job).priority, r.cutoff);
             forall k | 0 <= k < |eligible| :: !MayBackfill(eligible[k], limits, gate, r.consumed, started)
    ensures final == outcome
  {
    BackfillNone(limits, eligible, Gate(r.job, Lookup(eligible, r.job).priority, r.cutoff), r.consumed, started);
  }

  lemma TrackSatisfied(final: PassOutcome, outcome: PassOutcome, eligible: seq<Candidate>,
                       limits: seq<nat>, jobs: set<JobId>, started: set<JobId>, r: Res)
    requires OnTrack(final, outcome, eligible, limits, jobs, started, Some(r))
    requires CanAdmit(limits, Lookup(eligible, r.job).limit)
    ensures var p := Lookup(eligible, r.job);
            OnTrack(final, outcome.(starts := outcome.starts + [Start(p.job, None)], satisfy := true), eligible,
                    limits + [p.limit], jobs + {p.job}, started + {p.job}, None)
  {
    var p := Lookup(eligible, r.job);
    var plan := FreshScan(limits + [p.limit], jobs + {p.job}, Without(eligible, started + {p.job}));
    JoinedShift(outcome, Start(p.job, None), PassOutcome(plan.starts, true, None, plan.create));
  }

  lemma TrackBackfill(final: PassOutcome, outcome: PassOutcome, eligible: seq<Candidate>,
                      limits: seq<nat>, jobs: set<JobId>, started: set<JobId>, r: Res, i: nat)
    requires OnTrack(final, outcome, eligible, limits, jobs, started, Some(r))
    requires !CanAdmit(limits, Lookup(eligible, r.job).limit)
    requires i < |eligible|
    requires var gate := Gate(r.job, Lookup(eligible, r.job).priority, r.cutoff);
             && MayBackfill(eligible[i], limits, gate, r.consumed, started)
             && forall k | 0 <= k < i :: !MayBackfill(eligible[k], limits, gate, r.consumed, started)
    ensures var c := eligible[i];
            OnTrack(final, outcome.(starts := outcome.starts + [Start(c.job, Some(r.job))]), eligible,
                    limits + [c.limit], jobs + {c.job}, started + {c.job}, Some(r.(consumed := r.consumed + {c.job})))
  {
    RemainingBackfill(eligible, limits, jobs, started, r, i);
    var c := eligible[i];
    var rest := Remaining(eligible, limits + [c.limit], jobs + {c.job}, started + {c.job}, Some(r.(consumed := r.consumed + {c.job})));
    JoinedShift(outcome, Start(c.job, Some(r.job)), rest);
  }

  lemma RemainingBackfill(eligible: seq<Candidate>, limits: seq<nat>, jobs: set<JobId>, started: set<JobId>, r: Res, i: nat)
    requires Listed(eligible, r.job) && started <= r.consumed
    requires !CanAdmit(limits, Lookup(eligible, r.job).limit)
    requires i < |eligible|
    requires var gate := Gate(r.job, Lookup(eligible, r.job).priority, r.cutoff);
             && MayBackfill(eligible[i], limits, gate, r.consumed, started)
             && forall k | 0 <= k < i :: !MayBackfill(eligible[k], limits, gate, r.consumed, started)
    ensures var c := eligible[i];
            var rest := Remaining(eligible, limits + [c.limit], jobs + {c.job}, started + {c.job}, Some(r.(consumed := r.consumed + {c.job})));
            && Remaining(eligible, limits, jobs, started, Some(r)) == rest.(starts := [Start(c.job, Some(r.job))] + rest.starts)
            && !CanAdmit(limits + [c.limit], Lookup(eligible, r.job).limit)
  {
    var p := Lookup(eligible, r.job);
    BackfillRescan(limits, eligible, Gate(r.job, p.priority, r.cutoff), r.consumed, started, i);
    AdmitAntitone(limits, eligible[i].limit, p.limit);
  }

  lemma JoinedShift(outcome: PassOutcome, s: Start, rest: PassOutcome)
    ensures Joined(outcome, rest.(starts := [s] + rest.starts)) == Joined(outcome.(starts := outcome.starts + [s]), rest)
  {
    assert outcome.starts + ([s] + rest.starts) == outcome.starts + [s] + rest.starts;
  }

  lemma TrackHead(final: PassOutcome, outcome: PassOutcome, eligible: seq<Candidate>,
                  limits: seq<nat>, jobs: set<JobId>, started: set<JobId>, i: nat)
    requires UniqueJobs(eligible)
    requires OnTrack(final, outcome, eligible, limits, jobs, started, None)
    requires i < |eligible| && eligible[i].job !in started
    requires forall k | 0 <= k < i :: eligible[k].job in started
    requires CanAdmit(limits, eligible[i].limit)
    ensures var c := eligible[i];
            OnTrack(final, outcome.(starts := outcome.starts + [Start(c.job, None)]), eligible,
                    limits + [c.limit], jobs + {c.job}, started + {c.job}, None)
  {
    var c := eligible[i];
    WithoutFront(eligible, started, i);
    var rest := FreshScan(limits + [c.limit], jobs + {c.job}, Without(eligible, started + {c.job}));
    JoinedShift(outcome, Start(c.job, None), PassOutcome(rest.starts, false, None, rest.create));
  }

  lemma TrackProtect(final: PassOutcome, outcome: PassOutcome, eligible: seq<Candidate>,
                     limits: seq<nat>, jobs: set<JobId>, started: set<JobId>, i: nat)
    requires UniqueJobs(eligible)
    requires OnTrack(final, outcome, eligible, limits, jobs, started, None)
    requires i < |eligible| && eligible[i].job !in started
    requires forall k | 0 <= k < i :: eligible[k].job in started
    requires !CanAdmit(limits, eligible[i].limit)
    ensures var c := eligible[i];
            OnTrack(final, outcome.(create := Some(NewReservation(c.job, jobs))), eligible,
                    limits, jobs, started, Some(Res(c.job, None, jobs, false)))
  {
    WithoutFront(eligible, started, i);
    LookupUnique(eligible, i);
    BackfillIgnores(limits, eligible, Gate(eligible[i].job, eligible[i].priority, None), jobs, started);
  }

  // -------------------------------------------------------------------------
  // Rescanning from the front finds nothing new
  // -------------------------------------------------------------------------

  /** Admission is antitone: a job that does not fit never fits once the set grew. */
  lemma AdmitAntitone(limits: seq<nat>, extra: nat, limit: nat)
    ensures CanAdmit(limits + [extra], limit) ==> CanAdmit(limits, limit)
  {
    assert forall l | l in limits :: l in limits + [extra];
  }

  lemma {:induction false} WithoutNothing(cands: seq<Candidate>)
    ensures Without(cands, {}) == cands
  {
    if cands != [] {
      WithoutNothing(cands[1..]);
    }
  }

  /** The first unstarted candidate heads the unstarted list. */
  lemma {:induction false} WithoutFront(cands: seq<Candidate>, gone: set<JobId>, i: nat)
    requires UniqueJobs(cands)
    requires i <= |cands|
    requires forall k | 0 <= k < i :: cands[k].job in gone
    requires i < |cands| ==> cands[i].job !in gone
    ensures i == |cands| ==> Without(cands, gone) == []
    ensures i < |cands| ==>
              Without(cands, gone) != [] && Without(cands, gone)[0] == cands[i] &&
              Without(cands, gone + {cands[i].job}) == Without(cands, gone)[1..]
    decreases |cands|
  {
    if i == 0 && cands != [] {
      WithoutIrrelevant(cands[1..], gone, cands[0].job);
    } else if cands != [] {
      WithoutFront(cands[1..], gone, i - 1);
    }
  }

  lemma {:induction false} WithoutIrrelevant(cands: seq<Candidate>, gone: set<JobId>, job: JobId)
    requires forall k | 0 <= k < |cands| :: cands[k].job != job
    ensures Without(cands, gone + {job}) == Without(cands, gone)
  {
    if cands != [] {
      WithoutIrrelevant(cands[1..], gone, job);
    }
  }

  lemma {:induction false} WithoutOneMore(cands: seq<Candidate>, gone: set<JobId>, c: Candidate)
    requires UniqueJobs(cands) && c in cands && c.job !in gone
    ensures |Without(cands, gone + {c.job})| < |Without(cands, gone)|
  {
    if cands[0] == c {
      WithoutIrrelevant(cands[1..], gone, c.job);
    } else {
      WithoutOneMore(cands[1..], gone, c);
    }
  }

  lemma {:induction false} LookupUnique(cands: seq<Candidate>, i: nat)
    requires UniqueJobs(cands) && i < |cands|
    ensures Listed(cands, cands[i].job) && Lookup(cands, cands[i].job) == cands[i]
  {
    assert cands[i] in cands;
    if i > 0 {
      LookupUnique(cands[1..], i - 1);
    }
  }

  /** Candidates that cannot backfill leave the scan where it was. */
  lemma {:induction false} BackfillSkips(limits: seq<nat>, cands: seq<Candidate>, gate: Gate, consumed: set<JobId>,
                                         started: set<JobId>, i: nat)
    requires started <= consumed && i <= |cands|
    requires forall k | 0 <= k < i :: !MayBackfill(cands[k], limits, gate, consumed, started)
    ensures BackfillScan(limits, cands, gate, consumed) == BackfillScan(limits, cands[i..], gate, consumed)
    decreases i
  {
    if i > 0 {
      assert !MayBackfill(cands[0], limits, gate, consumed, started);
      BackfillSkips(limits, cands[1..], gate, consumed, started, i - 1);
      assert cands[1..][i - 1..] == cands[i..];
    } else {
      assert cands[0..] == cands;
    }
  }

  lemma BackfillNone(limits: seq<nat>, cands: seq<Candidate>, gate: Gate, consumed: set<JobId>, started: set<JobId>)
    requires started <= consumed
    requires forall k | 0 <= k < |cands| :: !MayBackfill(cands[k], limits, gate, consumed, started)
    ensures BackfillScan(limits, cands, gate, consumed) == []
  {
    BackfillSkips(limits, cands, gate, consumed, started, |cands|);
  }

  /** Starting the first backfill and looking again from the front gives the
      same starts as carrying on behind it. */
  lemma BackfillRescan(limits: seq<nat>, cands: seq<Candidate>, gate: Gate, consumed: set<JobId>, started: set<JobId>, i: nat)
    requires started <= consumed && i < |cands|
    requires forall k | 0 <= k < i :: !MayBackfill(cands[k], limits, gate, consumed, started)
    requires MayBackfill(cands[i], limits, gate, consumed, started)
    ensures BackfillScan(limits, cands, gate, consumed) ==
            [Start(cands[i].job, Some(gate.job))]
            + BackfillScan(limits + [cands[i].limit], cands, gate, consumed + {cands[i].job})
  {
    var c := cands[i];
    BackfillSkips(limits, cands, gate, consumed, started, i);
    assert cands[i..][1..] == cands[i + 1..];
    forall k | 0 <= k < i + 1
      ensures !MayBackfill(cands[k], limits + [c.limit], gate, consumed + {c.job}, started)
    {
      AdmitAntitone(limits, c.limit, cands[k].limit);
    }
    BackfillSkips(limits + [c.limit], cands, gate, consumed + {c.job}, started, i + 1);
  }

  /** Jobs whose bypass is spent, and the protected job itself, play no part. */
  lemma {:induction false} BackfillIgnores(limits: seq<nat>, cands: seq<Candidate>, gate: Gate, consumed: set<JobId>, gone: set<JobId>)
    requires gone <= consumed
    ensures BackfillScan(limits, cands, gate, consumed) == BackfillScan(limits, Without(cands, gone), gate, consumed)
    ensures var w := Without(cands, gone);
            w != [] && w[0].job == gate.job ==>
              BackfillScan(limits, cands, gate, consumed) == BackfillScan(limits, w[1..], gate, consumed)
    decreases |cands|
  {
    if cands != [] {
      var c := cands[0];
      if gate.Passes(c) && c.job !in consumed && CanAdmit(limits, c.limit) {
        BackfillIgnores(limits + [c.limit], cands[1..], gate, consumed + {c.job}, gone);
      } else {
        BackfillIgnores(limits, cands[1..], gate, consumed, gone);
      }
    }
  }
}
