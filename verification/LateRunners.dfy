/**
 Where the attempt protocol fails: a runner that reaches the lock late, and an
 operator's resolve of an attempt whose group was never learned. Each failure has
 a run that shows it and the exact condition under which it can happen. Runs here
 are any enabled steps, prompt or not, from a state reached promptly.
 */
module LateRunners {
  import opened Domain
  import opened Lifecycle

  predicate HasPending(s: State) {
    exists r | r in s.runners :: Of(s.runners, r).Pending?
  }

  /** Some run from `s`, prompt or not, meets the goal. */
  ghost predicate CanReach(s: State, goal: State -> bool) {
    exists run: seq<Action> :: IsRun(s, run, false) && goal(After(s, run))
  }

  predicate Alive(s: State) {
    s.groups != {}
  }

  /** A command of a runner that was not authorized is alive. */
  predicate Beside(s: State) {
    exists r | r in s.groups :: s.rowRunner != Some(r)
  }

  /** The lease is gone, by no blind resolve, and a command is alive. */
  predicate Uncovered(s: State) {
    !s.lease && !s.blind && s.groups != {}
  }

  /** Once `start` is published, a command besides the authorized runner's can come alive if and only
      if some spawned runner has not tried the lock yet. */
  lemma LateLaunchExact(s: State)
    requires PromptlyReachable(s) && s.start
    ensures CanReach(s, Beside) <==> HasPending(s)
  {
    ReachableInv(s);
    if HasPending(s) {
      var r :| r in s.runners && Of(s.runners, r).Pending?;
      ReachesNow(LateLaunched(s, r), Beside);
      LateLaunch(s, r, Beside);
    } else {
      forall run | IsRun(s, run, false) ensures !Beside(After(s, run)) {
        NoPendingRun(s, run);
      }
    }
  }

  /** Without such a runner every run, prompt or not, is safe from then on. */
  lemma NoPendingIsSafe(s: State, run: seq<Action>)
    requires PromptlyReachable(s) && s.start && !HasPending(s) && IsRun(s, run, false)
    ensures !Uncovered(After(s, run))
  {
    ReachableInv(s);
    NoPendingRun(s, run);
  }

  /** The authorized runner is dead and has left nothing the daemon could release on, and exactly one
      runner is still to try the lock: it takes the place of the authorized one. */
  ghost predicate OneSuccessor(s: State) {
    && s.lease && s.result.None? && s.groups == {}
    && s.rowRunner.Some? && Of(s.runners, s.rowRunner.value).Dead?
    && (s.exec.None? || (s.row.Quarantined? && s.rowGroup.None?))
    && forall p: RunnerId, q: RunnerId | Of(s.runners, p).Pending? && Of(s.runners, q).Pending? :: p == q
  }

  /** Exactly when a late lock costs lease safety, after a release or while the lease is held: a lease
      can end up released over a live command if and only if `start` is published and some spawned
      runner has not tried the lock yet, except where that runner is the only one left to launch. */
  lemma LateLockExact(s: State)
    requires PromptlyReachable(s) && !s.blind && (s.start || !s.lease)
    ensures CanReach(s, Uncovered) <==> s.start && HasPending(s) && !OneSuccessor(s)
  {
    ReachableInv(s);
    if !s.start {
      assert Harmless(s);
      forall run | IsRun(s, run, false) ensures !Uncovered(After(s, run)) {
        HarmlessRun(s, run);
      }
    } else if HasPending(s) {
      var p :| p in s.runners && Of(s.runners, p).Pending?;
      if OneSuccessor(s) {
        SuccessorStarts(s, p);
        forall run | IsRun(s, run, false) ensures !Uncovered(After(s, run)) {
          SuccessorRun(s, p, run);
        }
      } else {
        LateLockUncovers(s, p);
      }
    } else {
      forall run | IsRun(s, run, false) ensures !Uncovered(After(s, run)) {
        NoPendingRun(s, run);
      }
    }
  }

  /** A runner delayed past its sibling's whole life starts the command again, without a lease. */
  lemma LateLockFails()
    ensures exists s :: PromptlyReachable(s) && !s.lease && !s.blind && CanReach(s, Uncovered)
  {
    hide PromptlyReachable, CanReach;
    LaunchedReachable();
    Reach(LAUNCHED, WriteExec(1));
    var s := Next(LAUNCHED, WriteExec(1));
    Reach(s, GroupEnds(1));
    s := Next(s, GroupEnds(1));
    Reach(s, Drain(1));
    s := Next(s, Drain(1));
    Reach(s, ReportDrained(1));
    s := Next(s, ReportDrained(1));
    Reach(s, FinalizeResult(AttemptState.Succeeded));
    s := Next(s, FinalizeResult(AttemptState.Succeeded));
    assert Of(s.runners, 0).Pending?;
    LateLockExact(s);
  }

  /** The runner dies before the handshake, the attempt is quarantined with its group unknown, and
      the operator resolves it while the command runs. */
  lemma BlindResolveFails()
    ensures exists s :: PromptlyReachable(s) && !s.lease && s.blind && s.groups != {}
  {
    hide PromptlyReachable;
    LaunchedReachable();
    Reach(LAUNCHED, Die(1));
    var s := Next(LAUNCHED, Die(1));
    Reach(s, QuarantineAttempt);
    s := Next(s, QuarantineAttempt);
    Reach(s, OperatorResolve(AttemptState.Lost));
    s := Next(s, OperatorResolve(AttemptState.Lost));
    assert 1 in s.groups;
  }

  /** Exactly when a blind resolve is unsafe: `start` was published and a command is alive, or a runner
      is left that may still launch one. Without `start` it is always safe. */
  lemma BlindResolveExact(s: State, outcome: AttemptState)
    requires PromptlyReachable(s) && Enabled(s, OperatorResolve(outcome)) && s.rowGroup.None?
    ensures CanReach(Next(s, OperatorResolve(outcome)), Alive) <==>
            s.start && (s.groups != {} || HasPending(s) || !NoneBeforeLaunch(s.runners))
  {
    ReachableInv(s);
    var t := Next(s, OperatorResolve(outcome));
    if s.start && s.groups != {} {
      ReachesNow(t, Alive);
    } else if s.start && HasPending(s) {
      var r :| r in s.runners && Of(s.runners, r).Pending?;
      ReachesNow(LateLaunched(t, r), Alive);
      LateLaunch(t, r, Alive);
    } else if s.start && !NoneBeforeLaunch(s.runners) {
      var r: RunnerId :| Of(s.runners, r).BeforeLaunch();
      StillLaunches(t, r);
    } else {
      assert Harmless(t);
      forall run | IsRun(t, run, false) ensures !Alive(After(t, run)) {
        HarmlessRun(t, run);
      }
    }
  }

  /** The daemon has found the group it knows empty, and would release the lease under another. */
  predicate AboutToUncover(s: State) {
    Enabled(s, ReleaseOrphan(AttemptState.Lost)) && Uncovered(Next(s, ReleaseOrphan(AttemptState.Lost)))
  }

  /** It happens with the lease still held: a late runner starts the command again after its sibling's
      death, and the daemon, which knows only the sibling's group, releases the lease itself. */
  lemma LateLockReleases()
    ensures exists s :: PromptlyReachable(s) && s.lease && CanReach(s, AboutToUncover)
  {
    hide PromptlyReachable, CanReach;
    OrphanedReachable();
    OrphanUncovered(LateLaunched(ORPHANED, 0), 0, 1);
    LateLaunch(ORPHANED, 0, AboutToUncover);
  }

  /** Every way the daemon, its clients and the runners end an attempt does occur, so the safety theorem
      speaks of each: a failed launch, a cancel or giving up while prepared, an authorized runner that
      died before `start`, an orphan found empty, and a published result. */
  lemma EveryReleaseOccurs()
    ensures PromptlyReachable(INIT) && Enabled(INIT, LaunchFailed(true)) && Enabled(INIT, LaunchFailed(false)) && Enabled(INIT, CancelPrepared)
    ensures exists s :: PromptlyReachable(s) && s.lease && Enabled(s, GiveUpPrepared)
    ensures exists s :: PromptlyReachable(s) && s.lease && Enabled(s, AbandonAuthorized)
    ensures exists s :: PromptlyReachable(s) && s.lease && Enabled(s, ReleaseOrphan(AttemptState.Lost))
    ensures exists s :: PromptlyReachable(s) && s.lease && Enabled(s, FinalizeResult(AttemptState.Failed))
  {
    hide PromptlyReachable;
    InitReachable();
    Reach(INIT, BeginReconcile);
    assert Enabled(Next(INIT, BeginReconcile), GiveUpPrepared);
    AbandonReachable();
    ReportReachable();
    OrphanedReachable();
    Reach(ORPHANED, GroupEnds(1));
    var drained := Next(ORPHANED, GroupEnds(1));
    Reach(drained, BeginReconcile);
    Reach(drained.(control := NoResult), ProbeEmpty);
    assert Enabled(drained.(control := GroupEmpty), ReleaseOrphan(AttemptState.Lost));
  }

  // -------------------------------------------------------------------------
  // After a release
  // -------------------------------------------------------------------------

  /** Without `start`, or with nobody left to see it, nothing is launched again. */
  ghost predicate Harmless(s: State) {
    && s.row.IsTerminal() && s.groups == {}
    && !s.control.SawIdentity? && !s.control.Approved? && !s.control.GroupEmpty?
    && if s.start then NoneBeforeLaunch(s.runners) && !HasPending(s) else Owned(s.runners, None)
  }

  lemma NoPending(s: State, r: RunnerId)
    requires !HasPending(s)
    ensures !Of(s.runners, r).Pending?
  {
  }

  lemma HarmlessMoved(s: State, r: RunnerId, phase: Phase)
    requires Harmless(s) && !phase.Pending?
    requires !s.start ==> !phase.Going? && !phase.Busy()
    requires s.start ==> !phase.BeforeLaunch()
    ensures Harmless(Moved(s, r, phase))
  {
    MovedOf(s.runners, r, phase);
    MovedOwned(s.runners, r, phase);
    var t := Moved(s, r, phase);
    if s.start {
      forall q | q in t.runners ensures !Of(t.runners, q).Pending? {
        NoPending(s, q);
      }
    }
  }

  /** Any step, prompt or not. */
  lemma HarmlessStep(s: State, a: Action)
    requires Harmless(s) && Enabled(s, a)
    ensures Harmless(Next(s, a))
  {
    if a.TryLock? || a.Announce? || a.SeeStart? || a.ReportUnlaunched? || a.LaunchCommand? || a.WriteExec?
       || a.Drain? || a.ReportDrained? || a.Die? {
      HarmlessRunner(s, a);
    }
  }

  lemma HarmlessRunner(s: State, a: Action)
    requires Harmless(s) && Enabled(s, a)
    requires a.TryLock? || a.Announce? || a.SeeStart? || a.ReportUnlaunched? || a.LaunchCommand? || a.WriteExec?
             || a.Drain? || a.ReportDrained? || a.Die?
    ensures Harmless(Next(s, a))
  {
    var r := a.runner;
    MovedOwned(s.runners, r, Dead);
    if s.start {
      NoPending(s, r);
    }
    match a
    case TryLock(_) => HarmlessMoved(s, r, if LockHeld(s.runners) then Dead else Locked);
    case Announce(_) => HarmlessMoved(s, r, Waiting);
    case WriteExec(_) => HarmlessMoved(s, r, if s.exec.None? then Supervising else Dead);
    case Drain(_) => HarmlessMoved(s, r, Drained);
    case Die(_) => HarmlessMoved(s, r, Dead);
    case ReportUnlaunched(_) => HarmlessMoved(s, r, if s.result.None? then Finished else Dead);
    case ReportDrained(_) => HarmlessMoved(s, r, if s.result.None? then Finished else Dead);
    case _ =>
  }

  lemma {:induction false} HarmlessRun(s: State, run: seq<Action>)
    requires Harmless(s) && IsRun(s, run, false)
    ensures After(s, run).groups == {}
    decreases |run|
  {
    if run != [] {
      hide Next, Enabled, Harmless;
      HarmlessStep(s, run[0]);
      HarmlessRun(Next(s, run[0]), run[1..]);
    }
  }

  // -------------------------------------------------------------------------
  // What a late runner can bring about
  // -------------------------------------------------------------------------

  lemma ReachesNow(s: State, goal: State -> bool)
    requires goal(s)
    ensures CanReach(s, goal)
  {
    var none: seq<Action> := [];
    assert IsRun(s, none, false) && After(s, none) == s;
  }

  lemma ReachesLater(s: State, a: Action, goal: State -> bool)
    requires Enabled(s, a) && CanReach(Next(s, a), goal)
    ensures CanReach(s, goal)
  {
    hide Next, Enabled;
    var rest: seq<Action> :| IsRun(Next(s, a), rest, false) && goal(After(Next(s, a), rest));
    var run := [a] + rest;
    assert run[0] == a && run[1..] == rest;
    assert IsRun(s, run, false) && After(s, run) == After(Next(s, a), rest);
  }

  /** The owner of the lock, if any, dead. */
  function Freed(runners: map<RunnerId, Phase>): map<RunnerId, Phase> {
    map q | q in runners :: if runners[q].HoldsLock() then Dead else runners[q]
  }

  function Announced(s: State, r: RunnerId): State {
    s.(runners := Freed(s.runners)[r := Waiting], identity := Some(r))
  }

  function LateLaunched(s: State, r: RunnerId): State {
    s.(runners := Freed(s.runners)[r := Launched], identity := Some(r), groups := s.groups + {r})
  }

  lemma FreedFacts(runners: map<RunnerId, Phase>)
    ensures !LockHeld(Freed(runners))
    ensures forall q: RunnerId :: Of(Freed(runners), q) == if Of(runners, q).HoldsLock() then Dead else Of(runners, q)
    ensures !LockHeld(runners) ==> Freed(runners) == runners
  {
    forall q: RunnerId ensures Of(Freed(runners), q) == if Of(runners, q).HoldsLock() then Dead else Of(runners, q) {
    }
    if !LockHeld(runners) {
      forall q | q in runners ensures Freed(runners)[q] == runners[q] {
        assert !Of(runners, q).HoldsLock();
      }
    }
  }

  lemma FreedByDeath(runners: map<RunnerId, Phase>, q: RunnerId)
    requires Exclusive(runners) && Of(runners, q).HoldsLock()
    ensures Freed(runners) == runners[q := Dead]
  {
    forall r | r in runners ensures Freed(runners)[r] == runners[q := Dead][r] {
      assert Of(runners, r).HoldsLock() ==> r == q;
    }
  }

  lemma LateLock(free: State, r: RunnerId, goal: State -> bool)
    requires !LockHeld(free.runners) && Of(free.runners, r).Pending?
    requires CanReach(free.(runners := free.runners[r := Waiting], identity := Some(r)), goal)
    ensures CanReach(free, goal)
  {
    hide CanReach, LockHeld;
    var locked := free.(runners := free.runners[r := Locked]);
    assert locked.runners[r := Waiting] == free.runners[r := Waiting];
    ReachesLater(locked, Announce(r), goal);
    ReachesLater(free, TryLock(r), goal);
  }

  /** The owner dies and a pending runner takes the lock and announces itself. */
  lemma LateAnnounce(s: State, r: RunnerId, goal: State -> bool)
    requires Exclusive(s.runners) && Of(s.runners, r).Pending? && CanReach(Announced(s, r), goal)
    ensures CanReach(s, goal)
  {
    hide CanReach, Exclusive, Freed;
    FreedFacts(s.runners);
    var free := s.(runners := Freed(s.runners));
    LateLock(free, r, goal);
    if LockHeld(s.runners) {
      var q :| q in s.runners && Of(s.runners, q).HoldsLock();
      FreedByDeath(s.runners, q);
      ReachesLater(s, Die(q), goal);
    }
  }

  /** With `start` published it goes on to launch the command. */
  lemma LateLaunch(s: State, r: RunnerId, goal: State -> bool)
    requires Exclusive(s.runners) && s.start && Of(s.runners, r).Pending? && CanReach(LateLaunched(s, r), goal)
    ensures CanReach(s, goal)
  {
    hide CanReach, Exclusive, Freed;
    var t := Announced(s, r);
    assert t.runners[r := Going] == Freed(s.runners)[r := Going];
    assert t.runners[r := Going][r := Launched] == Freed(s.runners)[r := Launched];
    ReachesLater(t.(runners := t.runners[r := Going]), LaunchCommand(r), goal);
    ReachesLater(t, SeeStart(r), goal);
    LateAnnounce(s, r, goal);
  }

  lemma StillLaunches(s: State, r: RunnerId)
    requires s.start && Of(s.runners, r).BeforeLaunch()
    ensures CanReach(s, Alive)
    decreases match Of(s.runners, r) case Locked => 3 case Waiting => 2 case _ => 1
  {
    hide CanReach;
    if Of(s.runners, r).Going? {
      var launched := Next(s, LaunchCommand(r));
      assert r in launched.groups;
      ReachesNow(launched, Alive);
      ReachesLater(s, LaunchCommand(r), Alive);
    } else if Of(s.runners, r).Waiting? {
      StillLaunches(Next(s, SeeStart(r)), r);
      ReachesLater(s, SeeStart(r), Alive);
    } else {
      StillLaunches(Next(s, Announce(r)), r);
      ReachesLater(s, Announce(r), Alive);
    }
  }

  // -------------------------------------------------------------------------
  // Every way a late lock uncovers a command
  // -------------------------------------------------------------------------

  /** A result on file lets the daemon release, whoever runs. */
  lemma ResultUncovers(s: State)
    requires !s.row.IsTerminal() && !s.blind && s.result.Some? && s.groups != {}
    ensures CanReach(s, Uncovered)
  {
    hide CanReach;
    var idle := s.(control := Idle);
    ReachesNow(Next(idle, FinalizeResult(AttemptState.Failed)), Uncovered);
    ReachesLater(idle, FinalizeResult(AttemptState.Failed), Uncovered);
    ReachesLater(s, EndReconcile, Uncovered);
  }

  /** With a result published, or the lease gone, a late launch is enough. */
  lemma LateAfterResult(s: State, p: RunnerId)
    requires Exclusive(s.runners) && s.start && Of(s.runners, p).Pending? && !s.blind
    requires !s.lease || (!s.row.IsTerminal() && s.result.Some?)
    ensures CanReach(s, Uncovered)
  {
    hide CanReach, Exclusive, Freed;
    var t := LateLaunched(s, p);
    assert p in t.groups;
    if s.lease {
      ResultUncovers(t);
    } else {
      ReachesNow(t, Uncovered);
    }
    LateLaunch(s, p, Uncovered);
  }

  /** A late runner that gives up publishes a result over whatever still runs. */
  lemma LateReport(s: State, p: RunnerId)
    requires Exclusive(s.runners) && Of(s.runners, p).Pending? && s.result.None?
    requires CanReach(Report(Announced(s, p), p), Uncovered)
    ensures CanReach(s, Uncovered)
  {
    hide CanReach, Exclusive, Freed;
    ReachesLater(Announced(s, p), ReportUnlaunched(p), Uncovered);
    LateAnnounce(s, p, Uncovered);
  }

  lemma LateBesideGroup(s: State, p: RunnerId)
    requires Exclusive(s.runners) && Of(s.runners, p).Pending? && s.result.None?
    requires !s.row.IsTerminal() && !s.blind && s.groups != {}
    ensures CanReach(s, Uncovered)
  {
    ResultUncovers(Report(Announced(s, p), p));
    LateReport(s, p);
  }

  /** The first of two late runners gives up, the second launches. */
  lemma LatePair(s: State, p: RunnerId, q: RunnerId)
    requires Exclusive(s.runners) && s.start && s.lease && !s.row.IsTerminal() && !s.blind && s.result.None?
    requires Of(s.runners, p).Pending? && Of(s.runners, q).Pending? && p != q
    ensures CanReach(s, Uncovered)
  {
    hide CanReach, Freed;
    var t := Report(Announced(s, p), p);
    FreedFacts(s.runners);
    assert t.runners == Freed(s.runners)[p := Finished];
    MovedOf(Freed(s.runners), p, Finished);
    assert forall r: RunnerId | Of(t.runners, r).HoldsLock() :: r == p by {
      NoLock(Freed(s.runners));
    }
    LateAfterResult(t, q);
    LateReport(s, p);
  }

  lemma NoLock(runners: map<RunnerId, Phase>)
    requires !LockHeld(runners)
    ensures forall r: RunnerId :: !Of(runners, r).HoldsLock()
  {
    forall r: RunnerId ensures !Of(runners, r).HoldsLock() {
      assert r in runners ==> !Of(runners, r).HoldsLock();
    }
  }

  /** The authorized runner takes one step of its own. */
  lemma OwnerStep(s: State, a: Action, r: RunnerId, p: RunnerId)
    requires Inv(s) && s.result.None? && s.rowRunner == Some(r) && Of(s.runners, p).Pending?
    requires a == Announce(r) || a == WriteExec(r) || a == Drain(r)
    requires Enabled(s, a)
    ensures var t := Next(s, a);
            && Inv(t) && t == s.(runners := s.runners[r := Of(t.runners, r)], identity := t.identity, exec := t.exec)
            && Of(t.runners, p).Pending?
            && Of(t.runners, r) == match a case Announce(_) => Waiting case WriteExec(_) => Supervising case _ => Drained
  {
    StepInv(s, a);
    MovedOf(s.runners, r, Of(Next(s, a).runners, r));
  }

  /** A living authorized runner whose command is gone, or was never launched, reports first. */
  lemma OwnerReports(s: State, r: RunnerId, p: RunnerId)
    requires Inv(s) && s.start && s.lease && !s.blind && s.result.None? && s.groups == {}
    requires s.rowRunner == Some(r) && Of(s.runners, r).HoldsLock() && Of(s.runners, p).Pending?
    ensures CanReach(s, Uncovered)
    decreases match Of(s.runners, r) case Locked => 4 case Launched => 3 case Supervising => 2 case _ => 1
  {
    hide CanReach, Inv;
    assert !Of(s.runners, r).Finished? && !s.row.IsTerminal() && Exclusive(s.runners) by {
      OwnerFacts(s, r);
    }
    var phase := Of(s.runners, r);
    if phase.Locked? || phase.Launched? || phase.Supervising? {
      var a := if phase.Locked? then Announce(r) else if phase.Launched? then WriteExec(r) else Drain(r);
      OwnerStep(s, a, r, p);
      OwnerReports(Next(s, a), r, p);
      ReachesLater(s, a, Uncovered);
    } else {
      var a := if phase.Drained? then ReportDrained(r) else ReportUnlaunched(r);
      MovedOf(s.runners, r, Finished);
      MovedLock(s.runners, r, Finished);
      LateAfterResult(Next(s, a), p);
      ReachesLater(s, a, Uncovered);
    }
  }

  lemma OwnerFacts(s: State, r: RunnerId)
    requires Inv(s) && s.lease && s.result.None?
    ensures !Of(s.runners, r).Finished? && !s.row.IsTerminal() && Exclusive(s.runners)
  {
  }

  /** The row knows the dead runner's group, or will: once that is empty, anyone may release. */
  lemma LateOverExec(s: State, r: RunnerId, p: RunnerId)
    requires Inv(s) && s.start && s.lease && !s.blind && s.result.None? && s.groups == {}
    requires s.rowRunner == Some(r) && Of(s.runners, r).Dead? && Of(s.runners, p).Pending?
    requires s.exec.Some? && !(s.row.Quarantined? && s.rowGroup.None?)
    ensures CanReach(s, Uncovered)
  {
    hide CanReach, Freed;
    FreedFacts(s.runners);
    var t := LateLaunched(s, p);
    MovedOf(Freed(s.runners), p, Launched);
    assert t.groups == {p} && Of(t.runners, r).Dead?;
    ExecUncovers(t.(control := Idle), r, p);
    ReachesLater(t, EndReconcile, Uncovered);
    LateLaunch(s, p, Uncovered);
  }

  lemma ExecUncovers(t: State, r: RunnerId, p: RunnerId)
    requires t.control.Idle? && t.lease && !t.blind && t.result.None? && t.groups == {p} && p != r
    requires t.rowRunner == Some(r) && Of(t.runners, r).Dead? && t.exec == Some(r) && (t.rowGroup.Some? ==> t.rowGroup == Some(r))
    requires t.row.Authorized? || (t.rowGroup.Some? && (t.row.Running? || t.row.Orphaned? || t.row.Quarantined?))
    ensures CanReach(t, Uncovered)
    decreases if t.row.Authorized? then 2 else if t.row.Running? then 1 else 0
  {
    hide CanReach;
    if t.row.Authorized? || t.row.Running? {
      var reading := t.(control := NoResult);
      var a := if t.row.Authorized? then ObserveExec else Orphan;
      ExecUncovers(Next(reading, a), r, p);
      ReachesLater(reading, a, Uncovered);
      ReachesLater(t, BeginReconcile, Uncovered);
    } else {
      ReachesNow(Next(t, OperatorResolve(AttemptState.Lost)), Uncovered);
      ReachesLater(t, OperatorResolve(AttemptState.Lost), Uncovered);
    }
  }

  lemma OrphanUncovered(s: State, p: RunnerId, r: RunnerId)
    requires s.row.Orphaned? && s.lease && !s.blind && s.control.Idle? && s.result.None?
    requires p != r && s.groups == {p, r} && s.rowGroup == Some(r)
    ensures CanReach(s, AboutToUncover)
  {
    hide CanReach;
    var watched := s.(groups := s.groups - {r});
    assert p in watched.groups;
    ReachesNow(watched.(control := GroupEmpty), AboutToUncover);
    ReachesLater(watched.(control := NoResult), ProbeEmpty, AboutToUncover);
    ReachesLater(watched, BeginReconcile, AboutToUncover);
    ReachesLater(s, GroupEnds(r), AboutToUncover);
  }

  lemma LateLockUncovers(s: State, p: RunnerId)
    requires Inv(s) && s.start && !s.blind && Of(s.runners, p).Pending? && !OneSuccessor(s)
    ensures CanReach(s, Uncovered)
  {
    hide CanReach;
    if !s.lease || s.result.Some? {
      LateAfterResult(s, p);
    } else if s.groups != {} {
      LateBesideGroup(s, p);
    } else {
      var r := s.rowRunner.value;
      if Of(s.runners, r).HoldsLock() {
        OwnerReports(s, r, p);
      } else if s.exec.Some? && !(s.row.Quarantined? && s.rowGroup.None?) {
        LateOverExec(s, r, p);
      } else {
        var x: RunnerId, y: RunnerId :| Of(s.runners, x).Pending? && Of(s.runners, y).Pending? && x != y;
        LatePair(s, x, y);
      }
    }
  }

  // -------------------------------------------------------------------------
  // The lone successor, and runs without a pending runner
  // -------------------------------------------------------------------------

  /** Only `p` lives, and everything there is to release on is its own. */
  ghost predicate Lone(s: State, p: RunnerId) {
    && s.start && !s.row.Prepared? && !s.control.SawIdentity? && !s.control.Approved?
    && (s.lease <==> !s.row.IsTerminal()) && (s.blind ==> !s.lease)
    && (forall q: RunnerId | q != p :: Of(s.runners, q).Dead?)
    && s.groups <= {p} && (p in s.groups ==> Of(s.runners, p).Launched? || Of(s.runners, p).Supervising? || Of(s.runners, p).Dead?)
    && (s.result.Some? ==> s.result == Some(p) && p !in s.groups && (Of(s.runners, p).Finished? || Of(s.runners, p).Dead?))
    && (s.rowGroup.Some? ==> s.rowGroup == s.exec == Some(p))
    && (s.exec.Some? ==> s.exec == Some(p) || s.row.Quarantined? || s.row.IsTerminal())
    && (s.exec == Some(p) ==> !Of(s.runners, p).Pending? && !Of(s.runners, p).BeforeLaunch())
    && (s.control.GroupEmpty? ==> s.row.Orphaned? && s.rowGroup.Some? && p !in s.groups)
    && (!s.lease && !s.blind ==> s.groups == {} && !Of(s.runners, p).Pending? && !Of(s.runners, p).BeforeLaunch())
  }

  lemma SuccessorStarts(s: State, p: RunnerId)
    requires Inv(s) && s.start && !s.blind && OneSuccessor(s) && Of(s.runners, p).Pending?
    ensures Lone(s, p)
  {
    forall q: RunnerId | q != p ensures Of(s.runners, q).Dead? {
      assert Of(s.runners, q).HoldsLock() || Of(s.runners, q).Pending? || Of(s.runners, q).Dead?;
    }
  }

  lemma SuccessorStep(s: State, p: RunnerId, a: Action)
    requires Lone(s, p) && Enabled(s, a)
    ensures Lone(Next(s, a), p)
  {
    if a.TryLock? || a.Announce? || a.SeeStart? || a.Drain? || a.Die? {
      SuccessorMoves(s, p, a);
    } else if a.ReportUnlaunched? || a.ReportDrained? || a.LaunchCommand? || a.WriteExec? {
      SuccessorActs(s, p, a);
    }
  }

  lemma SuccessorActs(s: State, p: RunnerId, a: Action)
    requires Lone(s, p) && Enabled(s, a) && (a.ReportUnlaunched? || a.ReportDrained? || a.LaunchCommand? || a.WriteExec?)
    ensures Lone(Next(s, a), p)
  {
    assert a.runner == p;
    var phase := Of(Next(s, a).runners, p);
    assert Next(s, a).runners == s.runners[p := phase];
    forall q: RunnerId | q != p ensures Of(Next(s, a).runners, q).Dead? {
      assert Of(s.runners, q).Dead?;
    }
  }

  lemma SuccessorMoves(s: State, p: RunnerId, a: Action)
    requires Lone(s, p) && Enabled(s, a) && (a.TryLock? || a.Announce? || a.SeeStart? || a.Drain? || a.Die?)
    ensures Lone(Next(s, a), p)
  {
    assert a.runner == p;
    var phase := Of(Next(s, a).runners, p);
    assert Next(s, a).runners == s.runners[p := phase];
    forall q: RunnerId | q != p ensures Of(Next(s, a).runners, q).Dead? {
      assert Of(s.runners, q).Dead?;
    }
  }

  lemma {:induction false} SuccessorRun(s: State, p: RunnerId, run: seq<Action>)
    requires Lone(s, p) && IsRun(s, run, false)
    ensures !Uncovered(After(s, run))
    decreases |run|
  {
    if run != [] {
      hide Next, Enabled, Lone;
      SuccessorStep(s, p, run[0]);
      SuccessorRun(Next(s, run[0]), p, run[1..]);
    }
  }

  /** Nobody is spawned once `start` is published, so the steps that are not prompt are gone for good. */
  lemma NoPendingStep(s: State, a: Action)
    requires Inv(s) && s.start && !HasPending(s) && Enabled(s, a)
    ensures Prompt(s, a) && Inv(Next(s, a)) && Next(s, a).start && !HasPending(Next(s, a))
  {
    assert Prompt(s, a) by {
      if a.TryLock? {
        NoPending(s, a.runner);
      }
    }
    StepInv(s, a);
    hide Inv;
    NoPendingAfter(s, a);
  }

  lemma NoPendingAfter(s: State, a: Action)
    requires Inv(s) && s.start && !HasPending(s) && Enabled(s, a)
    ensures Next(s, a).start && !HasPending(Next(s, a))
  {
    var t := Next(s, a);
    forall q | q in t.runners ensures !Of(t.runners, q).Pending? {
      NoPending(s, q);
    }
  }

  lemma {:induction false} NoPendingRun(s: State, run: seq<Action>)
    requires Inv(s) && s.start && !HasPending(s) && IsRun(s, run, false)
    ensures !Beside(After(s, run)) && !Uncovered(After(s, run))
    decreases |run|
  {
    if run != [] {
      hide Next, Enabled, Inv, HasPending;
      NoPendingStep(s, run[0]);
      NoPendingRun(Next(s, run[0]), run[1..]);
    }
  }

  // -------------------------------------------------------------------------
  // Reaching the failures
  // -------------------------------------------------------------------------

  lemma {:induction false} RunSnoc(s: State, run: seq<Action>, a: Action, prompt: bool)
    requires IsRun(s, run, prompt) && IsRun(s, run, false)
    requires Enabled(After(s, run), a) && (prompt ==> Prompt(After(s, run), a))
    ensures IsRun(s, run + [a], prompt) && IsRun(s, run + [a], false)
    ensures After(s, run + [a]) == Next(After(s, run), a)
    decreases |run|
  {
    hide Next, Enabled, Prompt;
    if run == [] {
      assert run + [a] == [a] && [a][1..] == [];
    } else {
      assert (run + [a])[0] == run[0] && (run + [a])[1..] == run[1..] + [a];
      RunSnoc(Next(s, run[0]), run[1..], a, prompt);
    }
  }

  lemma Reach(s: State, a: Action)
    requires PromptlyReachable(s) && Enabled(s, a) && Prompt(s, a)
    ensures PromptlyReachable(Next(s, a))
  {
    hide Next, Enabled, Prompt, IsRun, After;
    var run: seq<Action> :| IsRun(INIT, run, true) && IsRun(INIT, run, false) && After(INIT, run) == s;
    RunSnoc(INIT, run, a, true);
    RunSnoc(INIT, run, a, false);
  }

  /** Runner 0 is slow to reach the lock; after a crash runner 1 is spawned, authorized and told to start. */
  const STARTED: State :=
    State(Authorized, true, false, Some(1), None, Idle, true, Some(1), true, None, None, 2, map[0 := Pending, 1 := Waiting], {})

  const ANNOUNCED: State := INIT.(spawned := true, identity := Some(1), next := 2, runners := map[0 := Pending, 1 := Waiting])

  lemma AnnouncedReachable()
    ensures PromptlyReachable(ANNOUNCED)
  {
    hide PromptlyReachable;
    InitReachable();
    Reach(INIT, Spawn);
    Reach(Next(INIT, Spawn), Crash);
    var s := Next(Next(INIT, Spawn), Crash);
    Reach(s, Spawn);
    s := Next(s, Spawn);
    Reach(s, TryLock(1));
    s := Next(s, TryLock(1));
    Reach(s, Announce(1));
    s := Next(s, Announce(1));
    assert s.runners == ANNOUNCED.runners;
    assert s == ANNOUNCED;
  }

  lemma InitReachable()
    ensures PromptlyReachable(INIT)
  {
    var none: seq<Action> := [];
    assert IsRun(INIT, none, true) && After(INIT, none) == INIT;
  }

  lemma StartedReachable()
    ensures PromptlyReachable(STARTED)
  {
    hide PromptlyReachable;
    AnnouncedReachable();
    Reach(ANNOUNCED, BeginReconcile);
    Reach(ANNOUNCED.(control := NoResult), ReadIdentity);
    Reach(ANNOUNCED.(control := SawIdentity(1)), Approve);
    Reach(ANNOUNCED.(control := Approved(1)), Authorize);
    var t := ANNOUNCED.(row := Authorized, rowRunner := Some(1), control := Authorizing);
    Reach(t, PublishStart);
    Reach(t.(start := true), EndReconcile);
  }

  /** The command has been spawned, its handshake is still to come. */
  const LAUNCHED: State := STARTED.(runners := map[0 := Pending, 1 := Launched], groups := {1})

  lemma LaunchedReachable()
    ensures PromptlyReachable(LAUNCHED)
  {
    hide PromptlyReachable;
    StartedReachable();
    Reach(STARTED, SeeStart(1));
    var s := Next(STARTED, SeeStart(1));
    assert s.runners == map[0 := Pending, 1 := Going];
    Reach(s, LaunchCommand(1));
    assert Next(s, LaunchCommand(1)).runners == LAUNCHED.runners;
    assert Next(s, LaunchCommand(1)) == LAUNCHED;
  }

  /** Runner 1 died after its handshake and the attempt is orphaned; runner 0 has not reached the lock. */
  const ORPHANED: State :=
    LAUNCHED.(row := Orphaned, rowGroup := Some(1), exec := Some(1), runners := map[0 := Pending, 1 := Dead])

  lemma OrphanedReachable()
    ensures PromptlyReachable(ORPHANED)
  {
    hide PromptlyReachable;
    LaunchedReachable();
    Reach(LAUNCHED, WriteExec(1));
    var s := Next(LAUNCHED, WriteExec(1));
    Reach(s, Die(1));
    s := Next(s, Die(1));
    assert s.runners == map[0 := Pending, 1 := Dead];
    Reach(s, BeginReconcile);
    Reach(s.(control := NoResult), ObserveExec);
    s := Next(s.(control := NoResult), ObserveExec);
    Reach(s, BeginReconcile);
    Reach(s.(control := NoResult), Orphan);
  }

  /** The authorized runner dies before `start` is written. */
  lemma AbandonReachable()
    ensures exists s :: PromptlyReachable(s) && s.lease && Enabled(s, AbandonAuthorized)
  {
    hide PromptlyReachable;
    AnnouncedReachable();
    Reach(ANNOUNCED, BeginReconcile);
    Reach(ANNOUNCED.(control := NoResult), ReadIdentity);
    Reach(ANNOUNCED.(control := SawIdentity(1)), Approve);
    Reach(ANNOUNCED.(control := Approved(1)), Authorize);
    var s := ANNOUNCED.(row := Authorized, rowRunner := Some(1), control := Authorizing);
    Reach(s, EndReconcile);
    s := s.(control := Idle);
    Reach(s, Die(1));
    s := Next(s, Die(1));
    Reach(s, BeginReconcile);
    assert Enabled(s.(control := NoResult), AbandonAuthorized);
  }

  /** A runner gives up before it was authorized and reports. */
  lemma ReportReachable()
    ensures exists s :: PromptlyReachable(s) && s.lease && Enabled(s, FinalizeResult(AttemptState.Failed))
  {
    hide PromptlyReachable;
    AnnouncedReachable();
    Reach(ANNOUNCED, ReportUnlaunched(1));
    assert Enabled(Next(ANNOUNCED, ReportUnlaunched(1)), FinalizeResult(AttemptState.Failed));
  }
}
