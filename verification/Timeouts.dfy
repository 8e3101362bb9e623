/**
 A time limit across the runner's and the daemon's lifetimes. The runner commits to
 a timeout by writing an exclusive record; when the runner dies the daemon carries
 the commitment on. Limit edits, clears, cancels, runner deaths and daemon restarts
 interleave freely; what a poll of the runner sees is arbitrary.
 */
module Timeouts {
  import opened Domain
  import opened Supervision

  /** What a runner that is gone sent and wrote is on record all the same. */
  datatype Runner = Alive(sup: Sup) | Gone(sup: Sup)

  datatype Record = Record(deadline: int, observedAt: int)

  datatype Report = Report(outcome: Outcome, exit: Status)

  datatype Ending = ByResult | ByDrain | ByOperator

  /** `reading` tells that the daemon's current reconciliation found no result. `anchors` are the
      instants from which the daemon measured the grace before killing a timed-out orphan. */
  datatype State = State(
    launch: Launch,
    row: AttemptState,
    ending: Option<Ending>,
    startedRow: Option<int>,
    timedOutAt: Option<int>,
    cancelledAt: Option<int>,
    limit: Option<nat>,
    limitSetAt: Option<int>,
    reading: bool,
    runner: Runner,
    groupAlive: bool,
    file: Option<Record>,
    result: Option<Report>,
    anchors: seq<int>)

  /** The job's side when the command is spawned: its limit, when that was set, and a cancel already committed. */
  datatype Policy = Policy(limit: Option<nat>, limitSetAt: Option<int>, cancelledAt: Option<int>)

  /** The command has just been spawned; `override` is the limit file the runner found. */
  function Launched(c: Launch, override: Option<LiveLimit>, policy: Policy): State {
    State(c, Authorized, None, None, None, policy.cancelledAt, policy.limit, policy.limitSetAt, false,
          Alive(Initial(c, override)), true, None, None, [])
  }

  /** The terminal attempt state for a published result. */
  function FromReport(r: Report): (state: AttemptState)
    ensures state.IsTerminal()
  {
    match r.outcome
    case Exited => if r.exit == Code(0) then AttemptState.Succeeded else AttemptState.Failed
    case Cancelled => AttemptState.Cancelled
    case TimedOut => AttemptState.Failed
    case Yielded => AttemptState.Yielded
  }

  // -------------------------------------------------------------------------
  // The daemon and an orphan
  // -------------------------------------------------------------------------

  /** The deadline of the job's current limit; None when there is none or it cannot be represented. */
  function PolicyDeadline(s: State): Option<int> {
    if s.startedRow.None? || s.limit.None? || s.startedRow.value + s.limit.value > Supervision.I64_MAX then None
    else Some(s.startedRow.value + s.limit.value)
  }

  function OrphanDeadline(s: State): Option<int> {
    if s.file.Some? then Some(s.file.value.deadline)
    else if s.timedOutAt.Some? then s.timedOutAt
    else PolicyDeadline(s)
  }

  predicate OrphanExpired(s: State, now: int) {
    s.file.Some? || (OrphanDeadline(s).Some? && now >= OrphanDeadline(s).value)
  }

  predicate OrphanClassifies(s: State, now: int) {
    || s.file.Some? || s.timedOutAt.Some?
    || (OrphanExpired(s, now)
        && (s.cancelledAt.Some? ==> TimeoutWinsOverCancel(s.cancelledAt.value, OrphanDeadline(s).value, s.limitSetAt)))
  }

  /** A commitment made while the command was alive. */
  predicate Committed(s: State) {
    s.file.Some? || s.timedOutAt.Some?
  }

  function DrainedAs(s: State): AttemptState {
    if Committed(s) then AttemptState.Failed
    else if s.cancelledAt.Some? then AttemptState.Cancelled
    else AttemptState.Lost
  }

  /** One look at a live orphan. The database commitment comes first; `written` tells whether the
      record could then be written before a crash or an error. */
  function SignalOrphan(s: State, now: int, written: bool): State {
    if OrphanExpired(s, now) && OrphanClassifies(s, now) then
      var deadline := OrphanDeadline(s).value;
      var anchor := if s.file.Some? then s.file.value.observedAt else TimeoutKillAnchor(deadline, s.limitSetAt, None);
      s.(timedOutAt := if s.timedOutAt.None? then Some(deadline) else s.timedOutAt,
         file := if s.file.None? && written then Some(Record(deadline, anchor)) else s.file,
         anchors := s.anchors + [anchor])
    else s
  }

  // -------------------------------------------------------------------------
  // Steps
  // -------------------------------------------------------------------------

  datatype Action =
    | RunnerPoll(poll: Poll)
    | RunnerReport
    | RunnerDies
    | GroupEmpties
    | SetTimeLimit(limit: Option<nat>, now: int)
    | CancelJob(now: int)
    | DaemonCrash
    | BeginReconcile
    | EndReconcile
    | FinalizeResult
    | ObserveExec
    | MarkOrphaned
    | LookAtOrphan(foundEmpty: bool, now: int, written: bool)
    | QuarantineAttempt
    | OperatorResolve(state: AttemptState)

  predicate Enabled(s: State, a: Action) {
    match a
    case RunnerPoll(_) => s.runner.Alive? && !s.runner.sup.done
    case RunnerReport => s.runner.Alive? && s.runner.sup.done && s.runner.sup.exit.Some? && s.result.None?
    case RunnerDies => s.runner.Alive?
    case GroupEmpties => true
    case SetTimeLimit(_, _) => !s.row.IsTerminal()
    case CancelJob(_) => s.row.Authorized? || s.row.Running? || s.row.Orphaned?
    case DaemonCrash => true
    case BeginReconcile => !s.reading && !s.row.IsTerminal() && s.result.None?
    case EndReconcile => true
    case FinalizeResult => !s.reading && !s.row.IsTerminal() && s.result.Some?
    case ObserveExec => s.reading && s.row.Authorized?
    case MarkOrphaned => s.reading && s.row.Running? && s.runner.Gone?
    // The probe finds only empty groups empty; it may take an empty one for alive.
    case LookAtOrphan(foundEmpty, _, _) => s.reading && s.row.Orphaned? && (foundEmpty ==> !s.groupAlive)
    case QuarantineAttempt => !s.row.IsTerminal()
    case OperatorResolve(state) => (s.row.Orphaned? || s.row.Quarantined?) && (state.Lost? || state.Cancelled?)
  }

  /** The record written by a poll, if it wrote one. */
  function NewRecord(c: Launch, before: Sup, after: Sup, p: Poll): Option<Record> {
    var deadline := Deadline(c, after.limit);
    if after.timedOut && !before.timedOut && deadline.Some? && p.timeoutWritten then Some(Record(deadline.value, p.wall)) else None
  }

  function Next(s: State, a: Action): State
    requires Enabled(s, a)
  {
    match a
    case RunnerPoll(p) =>
      var after := Step(s.launch, s.runner.sup, p);
      s.(runner := Alive(after), file := if s.file.Some? then s.file else NewRecord(s.launch, s.runner.sup, after, p))
    case RunnerReport =>
      s.(result := Some(Report(Classify(s.launch, s.runner.sup), s.runner.sup.exit.value)), runner := Gone(s.runner.sup))
    case RunnerDies => s.(runner := Gone(s.runner.sup))
    case GroupEmpties => s.(groupAlive := false)
    case SetTimeLimit(limit, now) => if s.limit == limit then s else s.(limit := limit, limitSetAt := Some(now))
    case CancelJob(now) => s.(cancelledAt := if s.cancelledAt.None? then Some(now) else s.cancelledAt)
    case DaemonCrash => s.(reading := false)
    case BeginReconcile => s.(reading := true)
    case EndReconcile => s.(reading := false)
    case FinalizeResult => s.(row := FromReport(s.result.value), ending := Some(ByResult))
    case ObserveExec => s.(row := AttemptState.Running, startedRow := Some(s.launch.startedAt), reading := false)
    case MarkOrphaned => s.(row := Orphaned, reading := false)
    case LookAtOrphan(foundEmpty, now, written) =>
      if foundEmpty then s.(row := DrainedAs(s), ending := Some(ByDrain), reading := false)
      else SignalOrphan(s, now, written).(reading := false)
    case QuarantineAttempt => s.(row := Quarantined, reading := false)
    case OperatorResolve(state) => s.(row := state, ending := Some(ByOperator))
  }

  /** The record is among the runner's effects. */
  lemma RecordIsTraced(c: Launch, s: Sup, p: Poll)
    requires !s.done
    ensures var after := Step(c, s, p);
            NewRecord(c, s, after, p).Some? ==>
              TimeoutRecorded(NewRecord(c, s, after, p).value.deadline, p.wall) in after.trace
  {
    hide Enforce, HonourCancel, HonourYield, Escalate, Scan;
    var scanned := Scan(s, p);
    ScanKeeps(s, p);
    if !scanned.done {
      var enforced := Enforce(c, scanned, p);
      EnforceRecords(c, scanned, p);
      CancelKeepsTrace(c, enforced, p);
      YieldKeepsTrace(c, HonourCancel(c, enforced, p), p);
      EscalateKeepsTrace(HonourYield(c, HonourCancel(c, enforced, p), p), p);
    }
  }

  lemma StepKeepsTrace(c: Launch, s: Sup, p: Poll)
    ensures forall e | e in s.trace :: e in Step(c, s, p).trace
  {
    hide Enforce, HonourCancel, HonourYield, Escalate, Scan;
    var scanned := Scan(s, p);
    ScanKeeps(s, p);
    var enforced := Enforce(c, scanned, p);
    EnforceKeepsTrace(c, scanned, p);
    CancelKeepsTrace(c, enforced, p);
    YieldKeepsTrace(c, HonourCancel(c, enforced, p), p);
    EscalateKeepsTrace(HonourYield(c, HonourCancel(c, enforced, p), p), p);
  }

  lemma EnforceKeepsTrace(c: Launch, s: Sup, p: Poll)
    ensures forall e | e in s.trace :: e in Enforce(c, s, p).trace
  {
    hide TimeoutClassifies, Deadline, ObservedLimit;
  }

  lemma EnforceRecords(c: Launch, s: Sup, p: Poll)
    ensures var r := Enforce(c, s, p);
            var deadline := Deadline(c, r.limit);
            r.timedOut && !s.timedOut && deadline.Some? && p.timeoutWritten ==> TimeoutRecorded(deadline.value, p.wall) in r.trace
  {
    hide TimeoutClassifies, Deadline;
  }

  lemma CancelKeepsTrace(c: Launch, s: Sup, p: Poll)
    ensures forall e | e in s.trace :: e in HonourCancel(c, s, p).trace
    ensures HonourCancel(c, s, p).limit == s.limit
  {
    hide Terminate, Arm;
    if p.cancel.Some? {
      TerminateKeepsTrace(if s.timedOut then s
                          else if s.exit.None? then s.(cancelledBeforeExit := true)
                          else s.(cancelTooLate := true), p.cancelled);
    }
  }

  lemma TerminateKeepsTrace(s: Sup, at: nat)
    ensures forall e | e in s.trace :: e in Terminate(s, at).trace
  {
  }

  lemma YieldKeepsTrace(c: Launch, s: Sup, p: Poll)
    ensures forall e | e in s.trace :: e in HonourYield(c, s, p).trace
  {
  }

  lemma EscalateKeepsTrace(s: Sup, p: Poll)
    ensures forall e | e in s.trace :: e in Escalate(s, p).trace
  {
  }

  predicate IsRun(s: State, run: seq<Action>)
    decreases |run|
  {
    run == [] || (Enabled(s, run[0]) && IsRun(Next(s, run[0]), run[1..]))
  }

  function After(s: State, run: seq<Action>): State
    requires IsRun(s, run)
    decreases |run|
  {
    if run == [] then s else After(Next(s, run[0]), run[1..])
  }

  // -------------------------------------------------------------------------
  // The invariant
  // -------------------------------------------------------------------------

  /** The runner wrote this record. */
  predicate Traced(s: State, record: Record) {
    TimeoutRecorded(record.deadline, record.observedAt) in s.runner.sup.trace
  }

  ghost predicate Inv(s: State) {
    // A record and a living runner: the runner has timed out, and will say so.
    && (s.file.Some? && s.runner.Alive? ==> s.runner.sup.timedOut)
    && (s.result.Some? ==> s.runner.Gone? && (s.file.Some? ==> s.result.value.outcome.TimedOut?))
    && (s.result.Some? ==> s.result.value.outcome == Classify(s.launch, s.runner.sup) && s.runner.sup.exit == Some(s.result.value.exit))
    // The daemon commits only for an orphan, whose runner is gone and left no result.
    && (s.row.Orphaned? ==> s.runner.Gone?)
    && (s.row.Orphaned? && s.reading ==> s.result.None?)
    && (s.timedOutAt.Some? ==> s.runner.Gone? && s.result.None?)
    // The record is the runner's own effect or repeats the daemon's commitment; both name one deadline.
    && (s.file.Some? ==> Traced(s, s.file.value) || s.timedOutAt == Some(s.file.value.deadline))
    && (s.file.Some? && s.timedOutAt.Some? ==> s.timedOutAt.value == s.file.value.deadline)
    // Endings.
    && (s.ending.Some? <==> s.row.IsTerminal())
    && (s.ending == Some(ByResult) ==> s.result.Some? && s.row == FromReport(s.result.value))
    && (s.ending == Some(ByDrain) ==> s.row == DrainedAs(s) && s.runner.Gone?)
  }

  lemma LaunchedInv(c: Launch, override: Option<LiveLimit>, policy: Policy)
    ensures Inv(Launched(c, override, policy))
  {
  }

  lemma PollInv(s: State, p: Poll)
    requires Inv(s) && Enabled(s, RunnerPoll(p))
    ensures Inv(Next(s, RunnerPoll(p)))
  {
    hide Step, Deadline;
    StepFlagsKept(s.launch, s.runner.sup, p);
    RecordIsTraced(s.launch, s.runner.sup, p);
  }

  /** A timeout that fired stays, and so does every effect. */
  lemma StepFlagsKept(c: Launch, s: Sup, p: Poll)
    requires !s.done
    ensures s.timedOut ==> Step(c, s, p).timedOut
    ensures forall e | e in s.trace :: e in Step(c, s, p).trace
  {
    StepFlags(c, s, p);
    StepKeepsTrace(c, s, p);
  }

  lemma StepInv(s: State, a: Action)
    requires Inv(s) && Enabled(s, a)
    ensures Inv(Next(s, a))
  {
    hide Step, OrphanClassifies, PolicyDeadline;
    if a.RunnerPoll? {
      PollInv(s, a.poll);
    }
  }

  // -------------------------------------------------------------------------
  // A recorded timeout is final
  // -------------------------------------------------------------------------

  /** The record stays, every later kill is measured from its instant, the database never names another
      deadline, and the attempt ends as failed unless an operator decides. */
  ghost predicate Bound(s: State, record: Record, from: nat) {
    && s.file == Some(record)
    && from <= |s.anchors| && (forall i | from <= i < |s.anchors| :: s.anchors[i] == record.observedAt)
    && (s.timedOutAt.Some? ==> s.timedOutAt.value == record.deadline)
    && (s.row.IsTerminal() ==> s.row.Failed? || s.ending == Some(ByOperator))
  }

  lemma BoundFromNow(s: State)
    requires Inv(s) && s.file.Some?
    ensures Bound(s, s.file.value, |s.anchors|)
  {
    if s.ending.Some? {
      match s.ending.value
      case ByResult => assert s.row.Failed?;
      case ByDrain => assert s.row.Failed?;
      case ByOperator =>
    }
  }

  lemma BoundStep(s: State, a: Action, record: Record, from: nat)
    requires Inv(s) && Enabled(s, a) && Bound(s, record, from)
    ensures Bound(Next(s, a), record, from)
  {
    hide Step, OrphanClassifies, PolicyDeadline, NewRecord;
  }

  lemma {:induction false} BoundRun(s: State, run: seq<Action>, record: Record, from: nat)
    requires Inv(s) && IsRun(s, run) && Bound(s, record, from)
    ensures Bound(After(s, run), record, from)
    decreases |run|
  {
    if run != [] {
      hide Inv, Bound, Next, Enabled;
      StepInv(s, run[0]);
      BoundStep(s, run[0], record, from);
      BoundRun(Next(s, run[0]), run[1..], record, from);
    }
  }

  lemma {:induction false} RunInv(s: State, run: seq<Action>)
    requires Inv(s) && IsRun(s, run)
    ensures Inv(After(s, run))
    decreases |run|
  {
    if run != [] {
      hide Inv, Next, Enabled;
      StepInv(s, run[0]);
      RunInv(Next(s, run[0]), run[1..]);
    }
  }

  /** Once the record exists, whatever happens afterwards, it does not change, every later kill of the
      orphan is measured from it, and the attempt can only end as failed, operators apart. The record
      is one the runner wrote, or repeats the deadline the daemon committed to. */
  lemma RecordedTimeoutIsFinal(c: Launch, override: Option<LiveLimit>, policy: Policy, run: seq<Action>, more: seq<Action>)
    requires IsRun(Launched(c, override, policy), run) && IsRun(After(Launched(c, override, policy), run), more)
    requires After(Launched(c, override, policy), run).file.Some?
    ensures var s, t := After(Launched(c, override, policy), run), After(After(Launched(c, override, policy), run), more);
            && Bound(t, s.file.value, |s.anchors|)
            && (Traced(s, s.file.value) || s.timedOutAt == Some(s.file.value.deadline))
  {
    hide IsRun, After, Step;
    LaunchedInv(c, override, policy);
    RunInv(Launched(c, override, policy), run);
    var s := After(Launched(c, override, policy), run);
    BoundFromNow(s);
    BoundRun(s, more, s.file.value, |s.anchors|);
  }

  // -------------------------------------------------------------------------
  // How a drained orphan is classified
  // -------------------------------------------------------------------------

  /** The deadline of the limit on file fits a timestamp. */
  predicate Representable(c: Launch, p: Poll) {
    var limit := if p.override.Some? then p.override.value.ms else c.limit;
    limit.Some? && limit.value <= Supervision.I64_MAX && c.startedAt + limit.value <= Supervision.I64_MAX
  }

  /** The poll finds the limit passed, no cancel that came first and the group not empty, for the first
      time, and its record gets written. */
  predicate PollCommits(c: Launch, s: Sup, p: Poll) {
    var exit := if s.exit.None? then p.exited else s.exit;
    && !s.timedOut && !(exit.Some? && p.othersGone)
    && PastLimit(c, p) && (p.cancel.Some? ==> CancelledAfter(c, p))
    && Representable(c, p) && p.timeoutWritten
  }

  /** The daemon does not find the group empty, the deadline of the job's limit has passed, and no cancel
      was requested by then or before the limit was installed. */
  predicate LookCommits(s: State, foundEmpty: bool, now: int) {
    && !foundEmpty && s.startedRow.Some? && s.limit.Some?
    && var deadline := s.startedRow.value + s.limit.value;
       && deadline <= Supervision.I64_MAX && now >= deadline
       && (s.cancelledAt.Some? ==> s.cancelledAt.value > deadline && (s.limitSetAt.Some? ==> s.cancelledAt.value > s.limitSetAt.value))
  }

  predicate Commits(s: State, a: Action) {
    match a
    case RunnerPoll(p) => PollCommits(s.launch, s.runner.sup, p)
    case LookAtOrphan(foundEmpty, now, _) => LookCommits(s, foundEmpty, now)
    case _ => false
  }

  /** Some step of the run commits to a timeout. */
  predicate TimeoutCommitted(s: State, run: seq<Action>)
    requires IsRun(s, run)
    decreases |run|
  {
    run != [] && (Commits(s, run[0]) || TimeoutCommitted(Next(s, run[0]), run[1..]))
  }

  predicate CancelCommitted(policy: Policy, run: seq<Action>) {
    policy.cancelledAt.Some? || exists a | a in run :: a.CancelJob?
  }

  /** The record appears exactly with such a poll. */
  lemma PollRecords(c: Launch, s: Sup, p: Poll)
    requires !s.done
    ensures NewRecord(c, s, Step(c, s, p), p).Some? <==> PollCommits(c, s, p)
  {
    hide Step, TimeoutClassifies, PastLimit, CancelledAfter;
    StepFlags(c, s, p);
    TimeoutPrecedence(c, p);
    if Step(c, s, p).timedOut && !s.timedOut {
      StepAdopts(c, s, p);
    }
  }

  /** The limit that fired is the one on file at that poll. */
  lemma StepAdopts(c: Launch, s: Sup, p: Poll)
    requires !s.done && !s.timedOut && Step(c, s, p).timedOut
    ensures Step(c, s, p).limit == ObservedLimit(c, p.override)
  {
    hide Enforce, HonourCancel, HonourYield, Escalate, Scan;
    var scanned := Scan(s, p);
    ScanKeeps(s, p);
    if !scanned.done {
      EnforceAdopts(c, scanned, p);
      CancelKeepsTrace(c, Enforce(c, scanned, p), p);
    }
  }

  lemma EnforceAdopts(c: Launch, s: Sup, p: Poll)
    requires !s.timedOut
    ensures Enforce(c, s, p).limit == ObservedLimit(c, p.override)
  {
    hide Terminate, Arm, Commit, TimeoutClassifies, Deadline, ObservedLimit;
  }

  lemma CommitStep(s: State, a: Action)
    requires Inv(s) && Enabled(s, a)
    ensures Committed(Next(s, a)) <==> Committed(s) || Commits(s, a)
    ensures Next(s, a).cancelledAt.Some? <==> s.cancelledAt.Some? || a.CancelJob?
  {
    hide Step, PollCommits, NewRecord;
    if a.RunnerPoll? {
      PollRecords(s.launch, s.runner.sup, a.poll);
    }
  }

  lemma {:induction false} CommitRun(s: State, run: seq<Action>)
    requires Inv(s) && IsRun(s, run)
    ensures Committed(After(s, run)) <==> Committed(s) || TimeoutCommitted(s, run)
    ensures After(s, run).cancelledAt.Some? <==> s.cancelledAt.Some? || exists a | a in run :: a.CancelJob?
    decreases |run|
  {
    if run != [] {
      hide Inv, Next, Enabled, Commits, Committed;
      StepInv(s, run[0]);
      CommitStep(s, run[0]);
      CommitRun(Next(s, run[0]), run[1..]);
      assert forall a :: a in run <==> a == run[0] || a in run[1..];
    }
  }

  /** An orphan found drained is classified by its history alone. It fails exactly when some earlier step
      committed to a timeout: a poll of its runner that recorded one, or a look of the daemon that did not
      find the group empty, with the deadline then in force passed and no cancel outranking it. Otherwise
      it is cancelled exactly when a cancel was committed, and lost if not. A deadline that passes after
      the last such step changes nothing. */
  lemma DrainedOrphanClassified(c: Launch, override: Option<LiveLimit>, policy: Policy, run: seq<Action>, now: int, written: bool)
    requires IsRun(Launched(c, override, policy), run)
    requires Enabled(After(Launched(c, override, policy), run), LookAtOrphan(true, now, written))
    ensures Next(After(Launched(c, override, policy), run), LookAtOrphan(true, now, written)).row ==
            if TimeoutCommitted(Launched(c, override, policy), run) then AttemptState.Failed
            else if CancelCommitted(policy, run) then AttemptState.Cancelled
            else AttemptState.Lost
  {
    hide IsRun, After, Step, TimeoutCommitted;
    LaunchedInv(c, override, policy);
    CommitRun(Launched(c, override, policy), run);
  }

  /** The same for every run that has ended in such a look, however it goes on. */
  lemma DrainedRunClassified(c: Launch, override: Option<LiveLimit>, policy: Policy, run: seq<Action>)
    requires IsRun(Launched(c, override, policy), run)
    ensures var s := After(Launched(c, override, policy), run);
            s.ending == Some(ByDrain) ==>
              s.row == if TimeoutCommitted(Launched(c, override, policy), run) then AttemptState.Failed
                       else if CancelCommitted(policy, run) then AttemptState.Cancelled
                       else AttemptState.Lost
  {
    hide IsRun, After, Step, TimeoutCommitted;
    LaunchedInv(c, override, policy);
    RunInv(Launched(c, override, policy), run);
    CommitRun(Launched(c, override, policy), run);
  }

  /** Precedence for an orphan, in instants: a look that does not find the group empty after the deadline
      of the job's limit commits to the timeout exactly when no cancel was requested by the deadline or
      before the limit was installed; the orphan then drains as failed, and as cancelled if not. */
  lemma OrphanPrecedence(s: State, now: int, written: bool)
    requires Enabled(s, LookAtOrphan(false, now, written)) && s.file.None? && s.timedOutAt.None?
    requires s.startedRow.Some? && s.limit.Some?
    requires s.startedRow.value + s.limit.value <= Supervision.I64_MAX && s.startedRow.value + s.limit.value <= now
    ensures var t, deadline := Next(s, LookAtOrphan(false, now, written)), s.startedRow.value + s.limit.value;
            var inTime := s.cancelledAt.Some?
                          && (s.cancelledAt.value <= deadline || (s.limitSetAt.Some? && s.cancelledAt.value <= s.limitSetAt.value));
            && (t.timedOutAt == if inTime then None else Some(deadline))
            && DrainedAs(t) == if inTime then AttemptState.Cancelled else AttemptState.Failed
  {
  }

  /** The first kill of a timed-out orphan is measured from the deadline, or from the installation of the
      limit if that came later; the record fixes that instant. */
  lemma FirstAnchor(s: State, now: int, written: bool)
    requires Enabled(s, LookAtOrphan(false, now, written)) && s.file.None?
    ensures var t := Next(s, LookAtOrphan(false, now, written));
            |t.anchors| > |s.anchors| ==>
              && t.timedOutAt.Some? && |t.anchors| == |s.anchors| + 1
              && var deadline, anchor := t.timedOutAt.value, t.anchors[|s.anchors|];
                 && anchor >= deadline && (s.limitSetAt.Some? ==> anchor >= s.limitSetAt.value)
                 && (anchor == deadline || s.limitSetAt == Some(anchor))
                 && (t.file.Some? ==> t.file.value == Record(deadline, anchor))
  {
  }

  /** An attempt that ends by its result ends as the runner classified it: succeeded exactly when the
      command exited with code 0 and nothing else decided, cancelled and yielded as reported, and
      failed in every other case. */
  lemma ReportedRunClassified(c: Launch, override: Option<LiveLimit>, policy: Policy, run: seq<Action>)
    requires IsRun(Launched(c, override, policy), run)
    ensures var s := After(Launched(c, override, policy), run);
            s.ending == Some(ByResult) ==>
              && s.result.Some? && s.runner.Gone?
              && s.result.value.outcome == Classify(s.launch, s.runner.sup) && s.runner.sup.exit == Some(s.result.value.exit)
              && (s.row == AttemptState.Succeeded <==> s.result.value == Report(Exited, Code(0)))
              && (s.row == AttemptState.Cancelled <==> s.result.value.outcome.Cancelled?)
              && (s.row == AttemptState.Yielded <==> s.result.value.outcome.Yielded?)
              && (s.row != AttemptState.Succeeded && s.row != AttemptState.Cancelled && s.row != AttemptState.Yielded ==> s.row == AttemptState.Failed)
  {
    hide IsRun, After, Step, Classify;
    LaunchedInv(c, override, policy);
    RunInv(Launched(c, override, policy), run);
  }
}
