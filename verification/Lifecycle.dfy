/**
 One attempt as a crash-tolerant protocol between the daemon, its detached
 runners and a directory of artifacts. Every step is atomic; the daemon's
 reconciliation is cut at each read, so runners, deaths and command exits
 interleave with it. A daemon crash loses what it knew and what it had spawned.

 Facts that never change back (a dead process stays dead, a write-once artifact
 stays, only the daemon writes `start`) are read and used in one step. A group is
 found empty only when it is empty.
 */
module Lifecycle {
  import opened Domain

  type RunnerId = nat

  datatype Phase =
    | Pending      // spawned, lock not tried yet
    | Locked       // owns the lock, identity not written
    | Waiting      // announced, waiting for authorization
    | Going        // saw `start`
    | Launched     // command spawned, exec handshake not written
    | Supervising
    | Drained      // leader exited and the group proven empty
    | Finished     // result published, process not gone yet
    | Dead
  {
    predicate HoldsLock() {
      !Pending? && !Dead?
    }

    /** The runner may still start a command. */
    predicate BeforeLaunch() {
      Locked? || Waiting? || Going?
    }

    /** The command has been started and the runner has not reported yet. */
    predicate Busy() {
      Launched? || Supervising? || Drained?
    }
  }

  /** How far the daemon is in its reconciliation of the attempt. */
  datatype Control =
    | Idle
    | NoResult                      // read that there is no result
    | SawIdentity(runner: RunnerId) // then read this identity
    | Approved(runner: RunnerId)    // and found it alive
    | Authorizing                   // authorization committed, `start` not yet written
    | GroupEmpty                    // found the orphan's group empty

  /** `row` and `lease` with the recorded runner and group are the durable row;
      `control` and `spawned` live in the daemon; `identity`, `start`, `exec` and
      `result` are artifacts, of which only the identity is replaceable. `groups`
      are the runners whose command group has live members. */
  datatype State = State(
    row: AttemptState,
    lease: bool,
    blind: bool,
    rowRunner: Option<RunnerId>,
    rowGroup: Option<RunnerId>,
    control: Control,
    spawned: bool,
    identity: Option<RunnerId>,
    start: bool,
    exec: Option<RunnerId>,
    result: Option<RunnerId>,
    next: RunnerId,
    runners: map<RunnerId, Phase>,
    groups: set<RunnerId>)

  const INIT: State := State(Prepared, true, false, None, None, Idle, false, None, false, None, None, 0, map[], {})

  datatype Action =
    // The daemon
    | Crash
    | BeginReconcile
    | EndReconcile
    | FinalizeResult(outcome: AttemptState)
    | Spawn
    | LaunchFailed(running: bool)
    | ReadIdentity
    | Approve
    | GiveUpPrepared
    | Authorize
    | PublishStart
    | AbandonAuthorized
    | ObserveExec
    | Orphan
    | ProbeEmpty
    | ReleaseOrphan(outcome: AttemptState)
    | QuarantineAttempt
    // Clients
    | CancelPrepared
    | OperatorResolve(outcome: AttemptState)
    // Runners
    | TryLock(runner: RunnerId)
    | Announce(runner: RunnerId)
    | SeeStart(runner: RunnerId)
    | ReportUnlaunched(runner: RunnerId)
    | LaunchCommand(runner: RunnerId)
    | WriteExec(runner: RunnerId)
    | Drain(runner: RunnerId)
    | ReportDrained(runner: RunnerId)
    | Die(runner: RunnerId)
    // Commands
    | GroupEnds(runner: RunnerId)

  /** A runner that does not exist is not running either. */
  function Of(runners: map<RunnerId, Phase>, r: RunnerId): Phase {
    if r in runners then runners[r] else Dead
  }

  predicate LockHeld(runners: map<RunnerId, Phase>) {
    exists r | r in runners :: Of(runners, r).HoldsLock()
  }

  predicate Enabled(s: State, a: Action) {
    match a
    case Crash => true
    case BeginReconcile => s.control.Idle? && !s.row.IsTerminal() && s.result.None?
    case EndReconcile => true
    case FinalizeResult(outcome) => s.control.Idle? && !s.row.IsTerminal() && s.result.Some? && outcome.IsTerminal()
    case Spawn => (s.control.Idle? || s.control.NoResult?) && s.row.Prepared? && !s.spawned
    case LaunchFailed(_) => (s.control.Idle? || s.control.NoResult?) && s.row.Prepared? && !s.spawned
    case ReadIdentity => s.control.NoResult? && s.row.Prepared? && s.spawned && s.identity.Some?
    case Approve => s.control.SawIdentity? && !Of(s.runners, s.control.runner).Dead?
    case GiveUpPrepared => s.row.Prepared? && (s.control.NoResult? || (s.control.SawIdentity? && Of(s.runners, s.control.runner).Dead?))
    case Authorize => s.control.Approved? && s.row.Prepared?
    case PublishStart => (s.control.Authorizing? || s.control.NoResult?) && s.row.Authorized? && !s.start
    case AbandonAuthorized => s.control.NoResult? && s.row.Authorized? && !s.start && s.rowRunner.Some? && Of(s.runners, s.rowRunner.value).Dead?
    case ObserveExec => s.control.NoResult? && s.row.Authorized? && s.exec.Some?
    case Orphan => s.control.NoResult? && s.row.Running? && s.rowRunner.Some? && Of(s.runners, s.rowRunner.value).Dead?
    case ProbeEmpty => s.control.NoResult? && s.row.Orphaned? && s.rowGroup.Some? && s.rowGroup.value !in s.groups
    case ReleaseOrphan(outcome) => s.control.GroupEmpty? && outcome.IsTerminal()
    case QuarantineAttempt => !s.row.IsTerminal() && !s.row.Quarantined?
    case CancelPrepared => s.control.Idle? && s.row.Prepared?
    case OperatorResolve(outcome) => s.control.Idle? && (s.row.Orphaned? || s.row.Quarantined?) && outcome.IsTerminal()
                                     && (s.rowGroup.Some? ==> s.rowGroup.value !in s.groups)
    case TryLock(r) => Of(s.runners, r).Pending?
    case Announce(r) => Of(s.runners, r).Locked?
    case SeeStart(r) => Of(s.runners, r).Waiting? && s.start
    case ReportUnlaunched(r) => Of(s.runners, r).Waiting? || Of(s.runners, r).Going?
    case LaunchCommand(r) => Of(s.runners, r).Going?
    case WriteExec(r) => Of(s.runners, r).Launched?
    case Drain(r) => Of(s.runners, r).Supervising? && r !in s.groups
    case ReportDrained(r) => Of(s.runners, r).Drained?
    case Die(r) => !Of(s.runners, r).Dead?
    case GroupEnds(r) => r in s.groups
  }

  function Moved(s: State, r: RunnerId, phase: Phase): State {
    s.(runners := s.runners[r := phase])
  }

  /** The row becomes terminal and the lease is released. */
  function Release(s: State, outcome: AttemptState): State {
    s.(row := outcome, lease := false, control := Idle)
  }

  /** A result is write-once; a runner that cannot write it exits. */
  function Report(s: State, r: RunnerId): State {
    if s.result.None? then Moved(s, r, Finished).(result := Some(r)) else Moved(s, r, Dead)
  }

  function Spawned(s: State): State {
    s.(spawned := true, control := Idle, runners := s.runners[s.next := Pending], next := s.next + 1)
  }

  function Next(s: State, a: Action): State
    requires Enabled(s, a)
  {
    match a
    case Crash => s.(control := Idle, spawned := false)
    case BeginReconcile => s.(control := NoResult)
    case EndReconcile => s.(control := Idle)
    case FinalizeResult(outcome) => Release(s, outcome)
    case Spawn => Spawned(s)
    // Recording the spawn may fail after the process was created.
    case LaunchFailed(running) => Release(if running then Spawned(s) else s, AttemptState.Failed)
    case ReadIdentity => s.(control := SawIdentity(s.identity.value))
    case Approve => s.(control := Approved(s.control.runner))
    case GiveUpPrepared => Release(s, AttemptState.Failed)
    case Authorize => s.(row := Authorized, rowRunner := Some(s.control.runner), control := Authorizing)
    case PublishStart => s.(start := true)
    case AbandonAuthorized => Release(s, AttemptState.Failed)
    case ObserveExec => s.(row := AttemptState.Running, rowGroup := s.exec, control := Idle)
    case Orphan => s.(row := Orphaned, control := Idle)
    case ProbeEmpty => s.(control := GroupEmpty)
    case ReleaseOrphan(outcome) => Release(s, outcome)
    case QuarantineAttempt => s.(row := Quarantined, control := Idle)
    case CancelPrepared => Release(s, AttemptState.Cancelled)
    case OperatorResolve(outcome) => Release(s, outcome).(blind := s.rowGroup.None?)
    case TryLock(r) => Moved(s, r, if LockHeld(s.runners) then Dead else Locked)
    case Announce(r) => Moved(s, r, Waiting).(identity := Some(r))
    case SeeStart(r) => Moved(s, r, Going)
    case ReportUnlaunched(r) => Report(s, r)
    case LaunchCommand(r) => Moved(s, r, Launched).(groups := s.groups + {r})
    // A second handshake cannot be written; that runner exits and its command stays.
    case WriteExec(r) => if s.exec.None? then Moved(s, r, Supervising).(exec := Some(r)) else Moved(s, r, Dead)
    case Drain(r) => Moved(s, r, Drained)
    case ReportDrained(r) => Report(s, r)
    case Die(r) => Moved(s, r, Dead)
    case GroupEnds(r) => s.(groups := s.groups - {r})
  }

  // -------------------------------------------------------------------------
  // Runs
  // -------------------------------------------------------------------------

  /** A free lock may be taken while nobody is authorized and the daemon is not on its
      way to authorizing. A runner that tries the lock as part of being spawned always
      does so; so does a later one that finds the lock taken. */
  predicate Prompt(s: State, a: Action) {
    a.TryLock? ==> LockHeld(s.runners) || (s.rowRunner.None? && !s.control.Approved? && (s.control.Idle? || s.result.None?))
  }

  predicate IsRun(s: State, run: seq<Action>, prompt: bool)
    decreases |run|
  {
    run == [] || (Enabled(s, run[0]) && (prompt ==> Prompt(s, run[0])) && IsRun(Next(s, run[0]), run[1..], prompt))
  }

  function After(s: State, run: seq<Action>): State
    requires IsRun(s, run, false)
    decreases |run|
  {
    if run == [] then s else After(Next(s, run[0]), run[1..])
  }

  lemma {:induction false} PromptIsRun(s: State, run: seq<Action>)
    requires IsRun(s, run, true)
    ensures IsRun(s, run, false)
    decreases |run|
  {
    if run != [] {
      PromptIsRun(Next(s, run[0]), run[1..]);
    }
  }

  // -------------------------------------------------------------------------
  // The invariant
  // -------------------------------------------------------------------------

  predicate Known(s: State, r: Option<RunnerId>) {
    r.Some? ==> r.value < s.next
  }

  /** `r` has taken the lock at some time. */
  predicate Attached(s: State, r: RunnerId) {
    r < s.next && !Of(s.runners, r).Pending?
  }

  ghost predicate IdsOk(s: State) {
    && (forall r | r in s.runners :: r < s.next)
    && Known(s, s.rowRunner) && Known(s, s.exec) && Known(s, s.result)
    && (s.identity.Some? ==> Attached(s, s.identity.value))
    && (s.control.SawIdentity? || s.control.Approved? ==> Attached(s, s.control.runner))
  }

  /** The lock is exclusive. */
  ghost predicate Exclusive(runners: map<RunnerId, Phase>) {
    forall q: RunnerId, r: RunnerId | Of(runners, q).HoldsLock() && Of(runners, r).HoldsLock() :: q == r
  }

  /** Nobody but `r` owns the lock. */
  ghost predicate OnlyLocker(runners: map<RunnerId, Phase>, r: RunnerId) {
    forall q: RunnerId | Of(runners, q).HoldsLock() :: q == r
  }

  /** Rows, recorded identities and the artifacts the daemon writes. */
  ghost predicate RowOk(s: State) {
    && (s.lease <==> !s.row.IsTerminal()) && (s.blind ==> !s.lease)
    && (s.row.Prepared? ==> s.rowRunner.None?)
    && (s.row.Authorized? || s.row.Running? || s.row.Orphaned? ==> s.rowRunner.Some?)
    && (s.start ==> s.rowRunner.Some?)
    && (s.rowGroup.Some? ==> s.exec == s.rowGroup)
    && (s.row.Running? || s.row.Orphaned? ==> s.rowGroup.Some?)
    && (s.row.Orphaned? ==> Of(s.runners, s.rowRunner.value).Dead?)
  }

  ghost predicate ControlOk(s: State) {
    && (s.control.SawIdentity? || s.control.Approved? ==> s.row.Prepared?)
    && (s.control.Authorizing? ==> s.row.Authorized?)
    && (s.control.GroupEmpty? ==> s.row.Orphaned? && s.rowGroup.Some? && s.rowGroup.value !in s.groups)
    && (s.control.Approved? ==> OnlyLocker(s.runners, s.control.runner) && (s.result.None? || s.result == Some(s.control.runner)))
    && (s.row.Prepared? && (s.control.NoResult? || s.control.SawIdentity?) && s.result.Some? ==> OnlyLocker(s.runners, s.result.value))
  }

  /** Whoever saw `start` or has launched is `owner`. */
  ghost predicate Owned(runners: map<RunnerId, Phase>, owner: Option<RunnerId>) {
    forall r: RunnerId | Of(runners, r).Going? || Of(runners, r).Busy() :: owner == Some(r)
  }

  ghost predicate NoneBeforeLaunch(runners: map<RunnerId, Phase>) {
    forall r: RunnerId :: !Of(runners, r).BeforeLaunch()
  }

  /** Commands belong to the authorized runner alone, and only once `start` exists. */
  ghost predicate LaunchOk(s: State) {
    && Owned(s.runners, if s.start then s.rowRunner else None)
    && (forall r | r in s.groups :: s.start && s.rowRunner == Some(r) && (Of(s.runners, r).Launched? || Of(s.runners, r).Supervising? || Of(s.runners, r).Dead?))
    && (s.exec.Some? ==> s.start && s.rowRunner == s.exec
                         && (Of(s.runners, s.exec.value).Supervising? || Of(s.runners, s.exec.value).Drained?
                             || Of(s.runners, s.exec.value).Finished? || Of(s.runners, s.exec.value).Dead?))
  }

  /** After authorization the lock and the result are the authorized runner's. */
  ghost predicate OwnerOk(s: State) {
    && (s.rowRunner.Some? ==> OnlyLocker(s.runners, s.rowRunner.value) && !Of(s.runners, s.rowRunner.value).Pending?
                              && (s.result.None? || s.result == s.rowRunner))
    && (s.result.Some? ==> s.result.value !in s.groups && (Of(s.runners, s.result.value).Finished? || Of(s.runners, s.result.value).Dead?))
    && (forall r: RunnerId | Of(s.runners, r).Finished? :: s.result == Some(r))
  }

  /** Once the lease is gone nothing runs, and no runner that owns the lock will start anything. */
  ghost predicate ReleasedOk(s: State) {
    !s.lease && !s.blind ==> s.groups == {} && (s.start ==> NoneBeforeLaunch(s.runners))
  }

  ghost predicate Inv(s: State) {
    IdsOk(s) && Exclusive(s.runners) && RowOk(s) && ControlOk(s) && LaunchOk(s) && OwnerOk(s) && ReleasedOk(s)
  }

  // -------------------------------------------------------------------------
  // Safety over whole runs; the proofs follow
  // -------------------------------------------------------------------------

  ghost predicate PromptlyReachable(s: State) {
    exists run: seq<Action> :: IsRun(INIT, run, true) && IsRun(INIT, run, false) && After(INIT, run) == s
  }

  /** Over every interleaving of daemon steps, crashes, runner steps and deaths and
      command exits: once the lease is released, unless an operator resolved an attempt
      whose group was never learned, no command of the attempt is alive, then or later. */
  lemma LeaseReleaseIsSafe(s: State, more: seq<Action>)
    requires PromptlyReachable(s) && IsRun(s, more, true)
    ensures IsRun(s, more, false)
    ensures !s.lease && !s.blind ==> s.groups == {} && !After(s, more).lease && After(s, more).groups == {}
  {
    hide Inv, IsRun, After;
    ReachableInv(s);
    RunInv(s, more);
    InvParts(s);
    InvParts(After(s, more));
  }

  /** Trying the lock as part of being spawned is always prompt. */
  lemma LockAtSpawnIsPrompt(s: State)
    requires PromptlyReachable(s) && Enabled(s, Spawn)
    ensures Enabled(Next(s, Spawn), TryLock(s.next)) && Prompt(Next(s, Spawn), TryLock(s.next))
  {
    ReachableInv(s);
  }

  lemma InitInv()
    ensures Inv(INIT)
  {
  }

  // -------------------------------------------------------------------------
  // Every step keeps it
  // -------------------------------------------------------------------------

  /** Steps that only move the daemon along. */
  lemma ControlSteps(s: State, a: Action)
    requires Inv(s) && Enabled(s, a)
    requires a.Crash? || a.BeginReconcile? || a.EndReconcile? || a.ReadIdentity? || a.Approve? || a.ProbeEmpty?
    ensures Inv(Next(s, a))
  {
  }

  /** Steps that write the row or `start` and keep the lease. */
  lemma RowSteps(s: State, a: Action)
    requires Inv(s) && Enabled(s, a)
    requires a.Authorize? || a.PublishStart? || a.ObserveExec? || a.Orphan? || a.QuarantineAttempt?
    ensures Inv(Next(s, a))
  {
  }

  lemma SpawnStep(s: State)
    requires Inv(s)
    ensures s.row.Prepared? ==> Inv(Spawned(s))
  {
    assert forall r: RunnerId :: Of(Spawned(s).runners, r) == if r == s.next then Pending else Of(s.runners, r);
  }

  /** Nothing runs and nobody is left to launch: the lease may go. */
  lemma ReleaseInv(s: State, outcome: AttemptState, blind: bool)
    requires Inv(s) && outcome.IsTerminal() && !s.row.IsTerminal()
    requires !blind ==> s.groups == {} && (s.start ==> NoneBeforeLaunch(s.runners))
    ensures Inv(Release(s, outcome).(blind := blind))
  {
    hide OnlyLocker, Exclusive, Owned, NoneBeforeLaunch;
  }

  /** What the published result of an attempt says about its commands. */
  lemma ResultReleases(s: State)
    requires Inv(s) && s.result.Some? && !s.row.IsTerminal()
    ensures s.groups == {} && (s.start ==> NoneBeforeLaunch(s.runners))
  {
  }

  /** Without authorization, or with the authorized runner dead before `start`, nothing was launched. */
  lemma UnlaunchedReleases(s: State)
    requires Inv(s) && !s.start
    ensures s.groups == {}
  {
  }

  lemma EmptyGroupReleases(s: State)
    requires Inv(s) && s.rowGroup.Some? && s.rowGroup.value !in s.groups
    ensures s.groups == {} && NoneBeforeLaunch(s.runners)
  {
  }

  lemma ReleaseSteps(s: State, a: Action)
    requires Inv(s) && Enabled(s, a)
    requires a.FinalizeResult? || a.GiveUpPrepared? || a.AbandonAuthorized? || a.ReleaseOrphan?
             || a.CancelPrepared? || a.OperatorResolve?
    ensures Inv(Next(s, a))
  {
    hide OnlyLocker, Exclusive, Owned, NoneBeforeLaunch, LaunchOk, IdsOk;
    assert !s.blind;
    match a
    case FinalizeResult(outcome) =>
      ResultReleases(s);
      ReleaseInv(s, outcome, false);
    case ReleaseOrphan(outcome) =>
      EmptyGroupReleases(s);
      ReleaseInv(s, outcome, false);
    case OperatorResolve(outcome) =>
      if s.rowGroup.Some? {
        EmptyGroupReleases(s);
      }
      ReleaseInv(s, outcome, s.rowGroup.None?);
    case CancelPrepared =>
      UnlaunchedReleases(s);
      ReleaseInv(s, AttemptState.Cancelled, false);
    case _ =>
      UnlaunchedReleases(s);
      ReleaseInv(s, AttemptState.Failed, false);
  }

  lemma LaunchFailedStep(s: State, running: bool)
    requires Inv(s) && Enabled(s, LaunchFailed(running))
    ensures Inv(Next(s, LaunchFailed(running)))
  {
    SpawnStep(s);
  }

  lemma MovedOf(runners: map<RunnerId, Phase>, r: RunnerId, phase: Phase)
    ensures forall q: RunnerId :: Of(runners[r := phase], q) == if q == r then phase else Of(runners, q)
  {
    forall q: RunnerId ensures Of(runners[r := phase], q) == if q == r then phase else Of(runners, q) {
    }
  }

  /** Only taking the lock can add an owner. */
  lemma MovedLock(runners: map<RunnerId, Phase>, r: RunnerId, phase: Phase)
    requires Exclusive(runners) && (Of(runners, r).HoldsLock() || !phase.HoldsLock())
    ensures Exclusive(runners[r := phase])
    ensures forall p: RunnerId | OnlyLocker(runners, p) :: OnlyLocker(runners[r := phase], p)
  {
    MovedOf(runners, r, phase);
    var after := runners[r := phase];
    forall p: RunnerId, q: RunnerId | Of(after, p).HoldsLock() && Of(after, q).HoldsLock() ensures p == q {
      assert Of(runners, p).HoldsLock() && Of(runners, q).HoldsLock();
    }
    forall p: RunnerId | OnlyLocker(runners, p) ensures OnlyLocker(after, p) {
      forall q: RunnerId | Of(after, q).HoldsLock() ensures q == p {
        assert Of(runners, q).HoldsLock();
      }
    }
  }

  lemma MovedOwned(runners: map<RunnerId, Phase>, r: RunnerId, phase: Phase)
    ensures forall owner: Option<RunnerId> | Owned(runners, owner) && (phase.Going? || phase.Busy() ==> owner == Some(r)) ::
              Owned(runners[r := phase], owner)
    ensures NoneBeforeLaunch(runners) && !phase.BeforeLaunch() ==> NoneBeforeLaunch(runners[r := phase])
    ensures NoneBeforeLaunch(runners) ==> !Of(runners, r).BeforeLaunch()
    ensures forall owner: Option<RunnerId> | Owned(runners, owner) && (Of(runners, r).Going? || Of(runners, r).Busy()) :: owner == Some(r)
  {
    MovedOf(runners, r, phase);
    var after := runners[r := phase];
    forall owner: Option<RunnerId> | Owned(runners, owner) && (phase.Going? || phase.Busy() ==> owner == Some(r))
      ensures Owned(after, owner)
    {
      forall q: RunnerId | Of(after, q).Going? || Of(after, q).Busy() ensures owner == Some(q) {
        assert q != r ==> Of(runners, q).Going? || Of(runners, q).Busy();
      }
    }
    if NoneBeforeLaunch(runners) && !phase.BeforeLaunch() {
      forall q: RunnerId ensures !Of(after, q).BeforeLaunch() {
        assert !Of(runners, q).BeforeLaunch();
      }
    }
  }

  lemma LockTaken(runners: map<RunnerId, Phase>, r: RunnerId)
    requires !LockHeld(runners)
    ensures Exclusive(runners[r := Locked])
    ensures forall q: RunnerId :: !Of(runners, q).HoldsLock()
  {
    MovedOf(runners, r, Locked);
    assert forall q: RunnerId :: q in runners ==> !Of(runners, q).HoldsLock();
  }

  lemma LockStep(s: State, r: RunnerId)
    requires Inv(s) && Enabled(s, TryLock(r)) && Prompt(s, TryLock(r))
    ensures Inv(Next(s, TryLock(r)))
  {
    if LockHeld(s.runners) {
      MoveOn(s, r, Dead);
    } else {
      LockTaken(s.runners, r);
      MovedOf(s.runners, r, Locked);
      MovedOwned(s.runners, r, Locked);
    }
  }

  /** A runner moves on without touching anything else. */
  lemma MoveOn(s: State, r: RunnerId, phase: Phase)
    requires Inv(s)
    requires match phase
             case Waiting => Of(s.runners, r).Locked?
             case Going => Of(s.runners, r).Waiting? && s.start
             case Drained => Of(s.runners, r).Supervising? && r !in s.groups
             case Dead => r < s.next
             case _ => false
    ensures Inv(Moved(s, r, phase))
  {
    hide Exclusive, OnlyLocker, Owned, NoneBeforeLaunch;
    MovedOf(s.runners, r, phase);
    MovedLock(s.runners, r, phase);
    MovedOwned(s.runners, r, phase);
    if phase.Going? {
      WaiterIsOwner(s, r);
    }
  }

  /** Once `start` exists, whoever owns the lock is the authorized runner. */
  lemma WaiterIsOwner(s: State, r: RunnerId)
    requires Inv(s) && s.start && Of(s.runners, r).HoldsLock()
    ensures s.rowRunner == Some(r)
  {
  }

  lemma AnnounceStep(s: State, r: RunnerId)
    requires Inv(s) && Enabled(s, Announce(r))
    ensures Inv(Next(s, Announce(r)))
  {
    MoveOn(s, r, Waiting);
  }

  lemma ReportStep(s: State, r: RunnerId)
    requires Inv(s) && (Of(s.runners, r).Waiting? || Of(s.runners, r).Going? || Of(s.runners, r).Drained?)
    ensures Inv(Report(s, r))
  {
    if s.result.Some? {
      MoveOn(s, r, Dead);
    } else {
      ReportFirst(s, r);
    }
  }

  lemma ReportFirst(s: State, r: RunnerId)
    requires Inv(s) && s.result.None?
    requires Of(s.runners, r).Waiting? || Of(s.runners, r).Going? || Of(s.runners, r).Drained?
    ensures Inv(Report(s, r))
  {
    assert OnlyLocker(s.runners, r);
    assert (s.rowRunner.Some? ==> s.rowRunner == Some(r)) && (s.control.Approved? ==> s.control.runner == r);
    hide Exclusive, OnlyLocker, Owned, NoneBeforeLaunch;
    MovedOf(s.runners, r, Finished);
    MovedLock(s.runners, r, Finished);
    MovedOwned(s.runners, r, Finished);
  }

  lemma LaunchStep(s: State, r: RunnerId)
    requires Inv(s) && Enabled(s, LaunchCommand(r))
    ensures Inv(Next(s, LaunchCommand(r)))
  {
    hide Exclusive, OnlyLocker, Owned, NoneBeforeLaunch;
    MovedOf(s.runners, r, Launched);
    MovedLock(s.runners, r, Launched);
    MovedOwned(s.runners, r, Launched);
  }

  lemma ExecStep(s: State, r: RunnerId)
    requires Inv(s) && Enabled(s, WriteExec(r))
    ensures Inv(Next(s, WriteExec(r)))
  {
    if s.exec.Some? {
      MoveOn(s, r, Dead);
    } else {
      hide Exclusive, OnlyLocker, Owned, NoneBeforeLaunch;
      MovedOf(s.runners, r, Supervising);
      MovedLock(s.runners, r, Supervising);
      MovedOwned(s.runners, r, Supervising);
    }
  }

  lemma GroupStep(s: State, r: RunnerId)
    requires Inv(s)
    ensures Inv(s.(groups := s.groups - {r}))
  {
  }

  lemma StepInv(s: State, a: Action)
    requires Inv(s) && Enabled(s, a) && Prompt(s, a)
    ensures Inv(Next(s, a))
  {
    hide Inv, Prompt;
    match a
    case Crash => ControlSteps(s, a);
    case BeginReconcile => ControlSteps(s, a);
    case EndReconcile => ControlSteps(s, a);
    case ReadIdentity => ControlSteps(s, a);
    case Approve => ControlSteps(s, a);
    case ProbeEmpty => ControlSteps(s, a);
    case Spawn => SpawnStep(s);
    case LaunchFailed(running) => LaunchFailedStep(s, running);
    case Authorize => RowSteps(s, a);
    case PublishStart => RowSteps(s, a);
    case ObserveExec => RowSteps(s, a);
    case Orphan => RowSteps(s, a);
    case QuarantineAttempt => RowSteps(s, a);
    case TryLock(r) => LockStep(s, r);
    case Announce(r) => AnnounceStep(s, r);
    case SeeStart(r) => MoveOn(s, r, Going);
    case ReportUnlaunched(r) => ReportStep(s, r);
    case LaunchCommand(r) => LaunchStep(s, r);
    case WriteExec(r) => ExecStep(s, r);
    case Drain(r) => MoveOn(s, r, Drained);
    case ReportDrained(r) => ReportStep(s, r);
    case Die(r) =>
      KnownRunner(s, r);
      MoveOn(s, r, Dead);
    case GroupEnds(r) => GroupStep(s, r);
    case _ => ReleaseSteps(s, a);
  }

  lemma KnownRunner(s: State, r: RunnerId)
    requires Inv(s) && !Of(s.runners, r).Dead?
    ensures r < s.next
  {
  }

  // -------------------------------------------------------------------------
  // Every run keeps it
  // -------------------------------------------------------------------------

  /** A released lease stays released, and so does the manner of its release. */
  lemma ReleasedStays(s: State, a: Action)
    requires RowOk(s) && ControlOk(s) && Enabled(s, a) && !s.lease
    ensures !Next(s, a).lease && Next(s, a).blind == s.blind
  {
  }

  lemma {:induction false} RunInv(s: State, run: seq<Action>)
    requires Inv(s) && IsRun(s, run, true)
    ensures IsRun(s, run, false) && Inv(After(s, run))
    ensures !s.lease ==> !After(s, run).lease && After(s, run).blind == s.blind
    decreases |run|
  {
    hide Inv, Next, Enabled, Prompt;
    PromptIsRun(s, run);
    if run != [] {
      StepInv(s, run[0]);
      if !s.lease {
        InvParts(s);
        ReleasedStays(s, run[0]);
      }
      RunInv(Next(s, run[0]), run[1..]);
    }
  }

  lemma InvParts(s: State)
    requires Inv(s)
    ensures RowOk(s) && ControlOk(s) && ReleasedOk(s)
  {
  }

  lemma ReachableInv(s: State)
    requires PromptlyReachable(s)
    ensures Inv(s)
  {
    hide Inv, IsRun, After;
    var run: seq<Action> :| IsRun(INIT, run, true) && IsRun(INIT, run, false) && After(INIT, run) == s;
    InitInv();
    RunInv(INIT, run);
  }
}
