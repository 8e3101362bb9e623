/**
 The runner's supervision loop. What the runner sees in one poll is a `Poll`: exit
 and group scans, the control artifacts, and the instants at which it reads the
 monotonic clock (milliseconds since the command started). The loop is a class
 that updates its fields poll by poll, proved against `Step`; the theorems hold for
 every sequence of polls.
 */
module Supervision {
  import opened Domain

  const I64_MAX: int := 0x7fff_ffff_ffff_ffff

  datatype Status = Code(code: int) | BySignal(signal: int)

  datatype CancelFile = CancelFile(force: bool, requestedAt: Option<int>)

  /** `setAt` is when an override was committed, None for the launch snapshot. */
  datatype LiveLimit = LiveLimit(ms: Option<nat>, setAt: Option<int>)

  /** Fixed at launch. `yieldCode` is the exit code of the job's yield policy. */
  datatype Launch = Launch(grace: nat, startedAt: int, limit: Option<nat>, yieldCode: Option<int>)

  datatype Poll = Poll(
    exited: Option<Status>,         // the leader's exit status, if it can be waited for
    othersGone: bool,               // no group member besides the leader
    cancel: Option<CancelFile>,
    override: Option<LiveLimit>,    // a readable limit file with the attempt's token
    checked: nat,                   // when the deadline is checked
    wall: int,                      // wall clock for the timeout record
    timeoutWritten: bool,           // the timeout record exists after the attempt to write it
    armed: nat,                     // when a timeout signals and arms the kill
    cancelled: nat,                 // when a cancel signals and arms the kill
    yieldRequested: bool,
    yieldWritten: bool,             // the delivery record exists after the attempt to write it
    exitedMeanwhile: bool,          // the leader has exited when the signal is due
    last: nat)                      // when the kill is checked
  {
    predicate Ordered() {
      checked <= armed <= cancelled <= last
    }
  }

  datatype Effect =
    | TimeoutRecorded(deadline: int, observedAt: int)
    | Term(at: nat)
    | YieldRecorded
    | YieldSignal
    | Kill(at: nat)

  datatype Outcome = Exited | Cancelled | TimedOut | Yielded

  datatype Sup = Sup(
    exit: Option<Status>,
    emptyScans: nat,
    done: bool,
    termSent: bool,
    killAt: Option<nat>,
    killSent: bool,
    timedOut: bool,
    cancelledBeforeExit: bool,
    cancelTooLate: bool,
    yieldSent: bool,
    limit: LiveLimit,
    trace: seq<Effect>)

  /** A valid override wins over the launch snapshot, a clear included. */
  function ObservedLimit(c: Launch, override: Option<LiveLimit>): LiveLimit {
    if override.Some? then override.value else LiveLimit(c.limit, None)
  }

  function Initial(c: Launch, override: Option<LiveLimit>): Sup {
    Sup(None, 0, false, false, None, false, false, false, false, false, ObservedLimit(c, override), [])
  }

  /** The wall-clock deadline; None when it cannot be represented. */
  function Deadline(c: Launch, limit: LiveLimit): Option<int> {
    if limit.ms.None? || limit.ms.value > I64_MAX || c.startedAt + limit.ms.value > I64_MAX then None
    else Some(c.startedAt + limit.ms.value)
  }

  // -------------------------------------------------------------------------
  // One poll
  // -------------------------------------------------------------------------

  /** Exit and group scans; the second empty scan in a row ends supervision. */
  function Scan(s: Sup, p: Poll): Sup {
    var exit := if s.exit.None? then p.exited else s.exit;
    var scans := if exit.Some? && p.othersGone then s.emptyScans + 1 else 0;
    s.(exit := exit, emptyScans := scans, done := scans >= 2)
  }

  predicate Expired(limit: LiveLimit, p: Poll) {
    limit.ms.Some? && p.checked >= limit.ms.value
  }

  /** Whether a passed deadline, rather than the cancel on file, decides the outcome. */
  predicate TimeoutClassifies(c: Launch, limit: LiveLimit, p: Poll) {
    && Expired(limit, p)
    && (p.cancel.Some? ==>
          var deadline := Deadline(c, limit);
          && p.cancel.value.requestedAt.Some? && deadline.Some?
          && TimeoutWinsOverCancel(p.cancel.value.requestedAt.value, deadline.value, limit.setAt))
  }

  predicate SameScan(s: Sup, r: Sup) {
    r.exit == s.exit && r.emptyScans == s.emptyScans && r.done == s.done
  }

  function Terminate(s: Sup, at: nat): (r: Sup)
    ensures SameScan(s, r)
    ensures r == s.(termSent := true, trace := r.trace)
  {
    if s.termSent then s else s.(termSent := true, trace := s.trace + [Term(at)])
  }

  function Arm(c: Launch, s: Sup, at: nat): (r: Sup)
    ensures SameScan(s, r)
    ensures r == s.(killAt := r.killAt) && (r.killSent || r.killAt.Some?)
  {
    if s.killAt.None? && !s.killSent then s.(killAt := Some(at + c.grace)) else s
  }

  function Commit(c: Launch, s: Sup, p: Poll): (r: Sup)
    ensures SameScan(s, r)
    ensures r == s.(timedOut := true, trace := r.trace)
  {
    var deadline := Deadline(c, s.limit);
    s.(timedOut := true,
       trace := s.trace + if deadline.Some? && p.timeoutWritten then [TimeoutRecorded(deadline.value, p.wall)] else [])
  }

  /** An expired limit ends the group, and decides the outcome unless a cancel outranks it. */
  function Fire(c: Launch, s: Sup, p: Poll): (r: Sup)
    ensures SameScan(s, r)
  {
    var committed := if TimeoutClassifies(c, s.limit, p) && !s.timedOut then Commit(c, s, p) else s;
    Arm(c, Terminate(committed, p.armed), p.armed)
  }

  /** The time limit. Once it fired, the limit that fired stays in force. */
  function Enforce(c: Launch, s: Sup, p: Poll): (r: Sup)
    ensures SameScan(s, r)
  {
    var adopted := if s.timedOut then s else s.(limit := ObservedLimit(c, p.override));
    if Expired(adopted.limit, p) && adopted.emptyScans == 0 then Fire(c, adopted, p) else adopted
  }

  function HonourCancel(c: Launch, s: Sup, p: Poll): (r: Sup)
    ensures SameScan(s, r)
    ensures r.timedOut == s.timedOut && r.killSent == s.killSent && (s.termSent ==> r.termSent) && (s.killAt.Some? ==> r.killAt == s.killAt)
  {
    match p.cancel
    case None => s
    case Some(cancel) =>
      var noted := if s.timedOut then s
                   else if s.exit.None? then s.(cancelledBeforeExit := true)
                   else s.(cancelTooLate := true);
      var signalled := Terminate(noted, p.cancelled);
      if cancel.force then Arm(c, signalled, p.cancelled) else signalled
  }

  /** The delivery record first, then the signal, unless the leader exited meanwhile. */
  function HonourYield(c: Launch, s: Sup, p: Poll): (r: Sup)
    ensures SameScan(s, r)
    ensures r == s.(yieldSent := r.yieldSent, trace := r.trace)
  {
    if c.yieldCode.None? || s.yieldSent || s.termSent || s.exit.Some? || !p.yieldRequested || !p.yieldWritten then s
    else if p.exitedMeanwhile then s.(trace := s.trace + [YieldRecorded])
    else s.(yieldSent := true, trace := s.trace + [YieldRecorded, YieldSignal])
  }

  function Escalate(s: Sup, p: Poll): (r: Sup)
    ensures SameScan(s, r)
    ensures r == s.(killSent := r.killSent, killAt := r.killAt, trace := r.trace)
  {
    if s.killAt.Some? && p.last >= s.killAt.value then
      s.(killSent := true, killAt := None, trace := s.trace + [Kill(p.last)])
    else s
  }

  function Step(c: Launch, s: Sup, p: Poll): Sup {
    if s.done then s
    else
      var scanned := Scan(s, p);
      if scanned.done then scanned
      else Escalate(HonourYield(c, HonourCancel(c, Enforce(c, scanned, p), p), p), p)
  }

  /** The state after a sequence of polls; polls after the end change nothing. */
  function Run(c: Launch, override: Option<LiveLimit>, polls: seq<Poll>): Sup {
    if polls == [] then Initial(c, override)
    else Step(c, Run(c, override, polls[..|polls| - 1]), polls[|polls| - 1])
  }

  /** The reported outcome: timeout, then cancel before exit, then a declared yield. */
  function Classify(c: Launch, s: Sup): Outcome {
    if s.timedOut then TimedOut
    else if s.cancelledBeforeExit then Outcome.Cancelled
    else if c.yieldCode.Some? && s.yieldSent && s.exit == Some(Code(c.yieldCode.value)) then Outcome.Yielded
    else Exited
  }

  // -------------------------------------------------------------------------
  // The loop of the source
  // -------------------------------------------------------------------------

  class Supervisor {
    const launch: Launch
    var exitStatus: Option<Status>
    var emptyScans: nat
    var done: bool
    var termSent: bool
    var killAt: Option<nat>
    var killSent: bool
    var timedOut: bool
    var cancelledBeforeExit: bool
    var cancelTooLate: bool
    var yieldSent: bool
    var liveLimit: LiveLimit
    /** Signals sent and records written, in order. */
    var trace: seq<Effect>

    function State(): Sup
      reads this
    {
      Sup(exitStatus, emptyScans, done, termSent, killAt, killSent, timedOut, cancelledBeforeExit, cancelTooLate, yieldSent,
          liveLimit, trace)
    }

    constructor (launch: Launch, override: Option<LiveLimit>)
      ensures this.launch == launch && State() == Initial(launch, override)
    {
      this.launch := launch;
      exitStatus, emptyScans, done := None, 0, false;
      termSent, killAt, killSent, timedOut := false, None, false, false;
      cancelledBeforeExit, cancelTooLate, yieldSent := false, false, false;
      liveLimit := ObservedLimit(launch, override);
      trace := [];
    }

    method SignalGroup(at: nat)
      modifies this`termSent, this`trace
      ensures State() == Terminate(old(State()), at)
    {
      if !termSent {
        trace := trace + [Term(at)];
        termSent := true;
      }
    }

    method ArmKill(at: nat)
      modifies this`killAt
      ensures State() == Arm(launch, old(State()), at)
    {
      if killAt.None? && !killSent {
        killAt := Some(at + launch.grace);
      }
    }

    /** The record is exclusive: the first commitment is the one that counts. */
    method CommitTimeout(p: Poll)
      modifies this`timedOut, this`trace
      ensures State() == Commit(launch, old(State()), p)
    {
      timedOut := true;
      var deadline := Deadline(launch, liveLimit);
      assert trace + [] == trace;
      if deadline.Some? && p.timeoutWritten {
        trace := trace + [TimeoutRecorded(deadline.value, p.wall)];
      }
    }

    method EnforceLimit(p: Poll)
      modifies this
      ensures State() == Enforce(launch, old(State()), p)
    {
      hide Deadline, TimeoutClassifies, Terminate, Arm, Commit;
      if !timedOut {
        liveLimit := ObservedLimit(launch, p.override);
      }
      if Expired(liveLimit, p) && emptyScans == 0 {
        if TimeoutClassifies(launch, liveLimit, p) && !timedOut {
          CommitTimeout(p);
        }
        SignalGroup(p.armed);
        ArmKill(p.armed);
      }
    }

    method ScanGroup(p: Poll)
      modifies this`exitStatus, this`emptyScans, this`done
      ensures State() == Scan(old(State()), p)
    {
      if exitStatus.None? {
        exitStatus := p.exited;
      }
      if exitStatus.Some? && p.othersGone {
        emptyScans := emptyScans + 1;
      } else {
        emptyScans := 0;
      }
      done := emptyScans >= 2;
    }

    method TakeCancel(p: Poll)
      modifies this
      ensures State() == HonourCancel(launch, old(State()), p)
    {
      if p.cancel.Some? {
        if !timedOut {
          if exitStatus.None? {
            cancelledBeforeExit := true;
          } else {
            cancelTooLate := true;
          }
        }
        SignalGroup(p.cancelled);
        if p.cancel.value.force {
          ArmKill(p.cancelled);
        }
      }
    }

    method TakeYield(p: Poll)
      modifies this`trace, this`yieldSent
      ensures State() == HonourYield(launch, old(State()), p)
    {
      if launch.yieldCode.Some? && !yieldSent && !termSent && exitStatus.None? && p.yieldRequested && p.yieldWritten {
        ghost var before := trace;
        trace := trace + [YieldRecorded];
        if !p.exitedMeanwhile {
          trace := trace + [YieldSignal];
          yieldSent := true;
          assert trace == before + [YieldRecorded, YieldSignal];
        }
      }
    }

    method KillWhenDue(p: Poll)
      modifies this`trace, this`killSent, this`killAt
      ensures State() == Escalate(old(State()), p)
    {
      if killAt.Some? && p.last >= killAt.value {
        trace := trace + [Kill(p.last)];
        killSent := true;
        killAt := None;
      }
    }

    /** One round of the loop. */
    method PollOnce(p: Poll)
      requires !done
      modifies this
      ensures State() == Step(launch, old(State()), p)
    {
      hide Scan, Enforce, HonourCancel, HonourYield, Escalate;
      ScanGroup(p);
      if done {
        return;
      }
      EnforceLimit(p);
      TakeCancel(p);
      TakeYield(p);
      KillWhenDue(p);
    }

    /** Poll until the group is proven gone, then classify; None while the polls last. */
    method Supervise(polls: seq<Poll>, ghost override: Option<LiveLimit>) returns (outcome: Option<Outcome>)
      requires State() == Initial(launch, override)
      modifies this
      ensures State() == Run(launch, override, polls)
      ensures outcome == if done then Some(Classify(launch, State())) else None
    {
      var i := 0;
      while i < |polls| && !done
        invariant i <= |polls| && State() == Run(launch, override, polls[..i])
      {
        assert polls[..i + 1][..i] == polls[..i];
        PollOnce(polls[i]);
        i := i + 1;
      }
      RunStops(launch, override, polls, i);
      outcome := if done then Some(Classify(launch, State())) else None;
    }
  }

  /** Nothing changes after the end. */
  lemma {:induction false} RunStops(c: Launch, override: Option<LiveLimit>, polls: seq<Poll>, n: nat)
    requires n <= |polls| && (n < |polls| ==> Run(c, override, polls[..n]).done)
    ensures Run(c, override, polls) == Run(c, override, polls[..n])
    decreases |polls|
  {
    if n == |polls| {
      assert polls[..n] == polls;
    } else {
      var init := polls[..|polls| - 1];
      assert init[..n] == polls[..n];
      RunStops(c, override, init, n);
    }
  }

  // -------------------------------------------------------------------------
  // When supervision ends
  // -------------------------------------------------------------------------

  predicate ExitSeen(polls: seq<Poll>) {
    exists p | p in polls :: p.exited.Some?
  }

  /** Polls `i - 1` and `i` both found the group empty after the leader's exit was seen. */
  predicate Confirmed(polls: seq<Poll>, i: nat) {
    1 <= i < |polls| && ExitSeen(polls[..i]) && polls[i - 1].othersGone && polls[i].othersGone
  }

  ghost predicate Over(polls: seq<Poll>) {
    exists i: nat :: Confirmed(polls, i)
  }

  lemma ExitSeenStep(polls: seq<Poll>, p: Poll)
    ensures ExitSeen(polls + [p]) <==> ExitSeen(polls) || p.exited.Some?
  {
    assert p in polls + [p];
    assert forall q | q in polls :: q in polls + [p];
  }

  lemma OverStep(polls: seq<Poll>, p: Poll)
    ensures Over(polls + [p]) <==> Over(polls) || Confirmed(polls + [p], |polls|)
  {
    var all := polls + [p];
    forall i: nat | i < |polls| ensures Confirmed(all, i) == Confirmed(polls, i) {
      assert all[..i] == polls[..i];
    }
    if Over(polls) {
      var i: nat :| Confirmed(polls, i);
      assert Confirmed(all, i);
    }
    if Over(all) {
      var i: nat :| Confirmed(all, i);
      assert i < |polls| ==> Confirmed(polls, i);
    }
  }

  lemma StepScan(c: Launch, s: Sup, p: Poll)
    ensures Step(c, s, p).exit == if s.done then s.exit else Scan(s, p).exit
    ensures Step(c, s, p).emptyScans == if s.done then s.emptyScans else Scan(s, p).emptyScans
    ensures Step(c, s, p).done == (s.done || Scan(s, p).done)
  {
    hide Scan, Enforce, HonourCancel, HonourYield, Escalate;
  }

  /** Supervision ends exactly at the second of two consecutive polls that find the group empty
      after the leader's exit was seen; before that no result is reported. */
  lemma {:induction false} EndsAfterTwoEmptyScans(c: Launch, override: Option<LiveLimit>, polls: seq<Poll>)
    ensures Run(c, override, polls).done <==> Over(polls)
    ensures !Over(polls) ==> (Run(c, override, polls).exit.Some? <==> ExitSeen(polls))
    ensures !Over(polls) ==>
              Run(c, override, polls).emptyScans == if polls != [] && ExitSeen(polls) && polls[|polls| - 1].othersGone then 1 else 0
  {
    if polls != [] {
      hide Step, Scan, ExitSeen, Over, Confirmed;
      var init, p := polls[..|polls| - 1], polls[|polls| - 1];
      assert polls == init + [p];
      EndsAfterTwoEmptyScans(c, override, init);
      OverStep(init, p);
      ExitSeenStep(init, p);
      StepScan(c, Run(c, override, init), p);
      if !Over(init) {
        EndsStep(c, override, init, p);
      }
    } else {
      NothingSeen();
    }
  }

  lemma NothingSeen()
    ensures !Over([]) && !ExitSeen([])
  {
  }

  lemma EndsStep(c: Launch, override: Option<LiveLimit>, init: seq<Poll>, p: Poll)
    requires !Over(init)
    requires var s := Run(c, override, init);
             && (s.exit.Some? <==> ExitSeen(init))
             && s.emptyScans == if init != [] && ExitSeen(init) && init[|init| - 1].othersGone then 1 else 0
    ensures var s := Run(c, override, init);
            && (Scan(s, p).done <==> Confirmed(init + [p], |init|))
            && (Scan(s, p).exit.Some? <==> ExitSeen(init) || p.exited.Some?)
            && (!Scan(s, p).done ==> Scan(s, p).emptyScans == if Scan(s, p).exit.Some? && p.othersGone then 1 else 0)
  {
    hide ExitSeen, Over, Run;
    assert (init + [p])[..|init|] == init;
  }

  // -------------------------------------------------------------------------
  // Signals
  // -------------------------------------------------------------------------

  /** At most one SIGTERM, one SIGKILL and one yield signal; a kill comes the grace period or more
      after its SIGTERM; a yield signal comes after its record and never after SIGTERM. */
  ghost predicate TraceOk(trace: seq<Effect>, grace: nat) {
    && (forall i, j | 0 <= i < j < |trace| :: !Excludes(trace[i], trace[j]))
    && (forall j | 0 <= j < |trace| :: Caused(trace[..j], trace[j], grace))
  }

  /** `later` may not follow `earlier`. */
  predicate Excludes(earlier: Effect, later: Effect) {
    match earlier
    case TimeoutRecorded(_, _) => later.TimeoutRecorded?
    case Term(_) => later.Term? || later.YieldSignal?
    case YieldRecorded => false
    case YieldSignal => later.YieldSignal?
    case Kill(_) => later.Kill?
  }

  /** What must come before. */
  ghost predicate Caused(before: seq<Effect>, e: Effect, grace: nat) {
    && (e.Kill? ==> TermBefore(before, e.at, grace))
    && (e.YieldSignal? ==> YieldRecorded in before)
  }

  ghost predicate TermBefore(trace: seq<Effect>, at: nat, grace: nat) {
    exists e | e in trace :: e.Term? && e.at + grace <= at
  }

  predicate HasTerm(trace: seq<Effect>) {
    exists e | e in trace :: e.Term?
  }

  predicate HasKill(trace: seq<Effect>) {
    exists e | e in trace :: e.Kill?
  }

  predicate HasTimeout(trace: seq<Effect>) {
    exists e | e in trace :: e.TimeoutRecorded?
  }

  /** Every record of a timeout names this deadline. */
  ghost predicate Recorded(trace: seq<Effect>, deadline: Option<int>) {
    forall e | e in trace && e.TimeoutRecorded? :: Some(e.deadline) == deadline
  }

  /** What may come next. */
  ghost predicate Fits(trace: seq<Effect>, e: Effect, grace: nat) {
    match e
    case TimeoutRecorded(_, _) => !HasTimeout(trace)
    case Term(_) => !HasTerm(trace)
    case YieldRecorded => true
    case YieldSignal => YieldSignal !in trace && !HasTerm(trace) && YieldRecorded in trace
    case Kill(at) => !HasKill(trace) && TermBefore(trace, at, grace)
  }

  lemma TraceGrows(trace: seq<Effect>, e: Effect, grace: nat)
    requires TraceOk(trace, grace) && Fits(trace, e, grace)
    ensures TraceOk(trace + [e], grace)
  {
    hide TermBefore;
    var all := trace + [e];
    assert all[..|trace|] == trace;
    forall i, j | 0 <= i < j < |all| ensures !Excludes(all[i], all[j]) {
      assert all[i] == trace[i] && trace[i] in trace;
    }
    forall j | 0 <= j < |all| ensures Caused(all[..j], all[j], grace) {
      if j < |trace| {
        assert all[j] == trace[j] && all[..j] == trace[..j];
      }
    }
  }

  lemma TraceHas(trace: seq<Effect>, e: Effect)
    ensures HasTerm(trace + [e]) <==> HasTerm(trace) || e.Term?
    ensures HasKill(trace + [e]) <==> HasKill(trace) || e.Kill?
    ensures HasTimeout(trace + [e]) <==> HasTimeout(trace) || e.TimeoutRecorded?
    ensures YieldSignal in trace + [e] <==> YieldSignal in trace || e == YieldSignal
    ensures forall at: nat, grace: nat :: TermBefore(trace + [e], at, grace) <==> TermBefore(trace, at, grace) || (e.Term? && e.at + grace <= at)
    ensures forall d: Option<int> :: Recorded(trace + [e], d) <==> Recorded(trace, d) && (e.TimeoutRecorded? ==> Some(e.deadline) == d)
  {
    var all := trace + [e];
    assert e in all && (forall x :: x in all <==> x in trace || x == e);
  }

  /** What the flags say about the trace. A SIGTERM sent so far was sent by `now`. */
  ghost predicate SupOk(c: Launch, s: Sup, now: nat) {
    && TraceOk(s.trace, c.grace)
    && (s.termSent <==> HasTerm(s.trace))
    && (s.killSent <==> HasKill(s.trace))
    && (s.yieldSent <==> YieldSignal in s.trace)
    && (HasTimeout(s.trace) ==> s.timedOut)
    && Recorded(s.trace, Deadline(c, s.limit))
    && (s.termSent ==> TermBefore(s.trace, now, 0))
    && (s.killAt.Some? ==> !s.killSent && TermBefore(s.trace, s.killAt.value, c.grace))
    && (s.timedOut ==> s.limit.ms.Some?)
  }

  lemma TermByThen(trace: seq<Effect>, at: nat, grace: nat)
    requires TermBefore(trace, at, 0)
    ensures TermBefore(trace, at + grace, grace)
    ensures forall later: nat | at <= later :: TermBefore(trace, later, 0)
  {
    var e :| e in trace && e.Term? && e.at + 0 <= at;
  }

  lemma SupLater(c: Launch, s: Sup, now: nat, later: nat)
    requires SupOk(c, s, now) && now <= later
    ensures SupOk(c, s, later)
  {
    if s.termSent {
      TermByThen(s.trace, now, 0);
    }
  }

  lemma TerminateOk(c: Launch, s: Sup, at: nat)
    requires SupOk(c, s, at)
    ensures SupOk(c, Terminate(s, at), at) && Terminate(s, at).termSent
  {
    hide TraceOk, HasTerm, HasKill, HasTimeout, TermBefore, Recorded, Deadline;
    TraceHas(s.trace, Term(at));
    if !s.termSent {
      TraceGrows(s.trace, Term(at), c.grace);
    }
  }

  lemma ArmOk(c: Launch, s: Sup, at: nat)
    requires SupOk(c, s, at) && s.termSent
    ensures SupOk(c, Arm(c, s, at), at)
  {
    hide TraceOk, HasTerm, HasKill, HasTimeout, TermBefore, Recorded, Deadline;
    TermByThen(s.trace, at, c.grace);
  }

  lemma CommitOk(c: Launch, s: Sup, p: Poll, now: nat)
    requires SupOk(c, s, now) && !s.timedOut && s.limit.ms.Some?
    ensures SupOk(c, Commit(c, s, p), now)
  {
    hide TraceOk, HasTerm, HasKill, HasTimeout, TermBefore, Recorded, Deadline;
    var deadline := Deadline(c, s.limit);
    assert s.trace + [] == s.trace;
    if deadline.Some? && p.timeoutWritten {
      TraceHas(s.trace, TimeoutRecorded(deadline.value, p.wall));
      TraceGrows(s.trace, TimeoutRecorded(deadline.value, p.wall), c.grace);
    }
  }

  lemma AdoptOk(c: Launch, s: Sup, limit: LiveLimit, now: nat)
    requires SupOk(c, s, now) && !s.timedOut
    ensures SupOk(c, s.(limit := limit), now)
  {
  }

  lemma EnforceOk(c: Launch, s: Sup, p: Poll)
    requires SupOk(c, s, p.armed)
    ensures SupOk(c, Enforce(c, s, p), p.armed)
  {
    hide SupOk, Terminate, Arm, Commit, Deadline, TimeoutWinsOverCancel;
    var adopted := if s.timedOut then s else s.(limit := ObservedLimit(c, p.override));
    if !s.timedOut {
      AdoptOk(c, s, ObservedLimit(c, p.override), p.armed);
    }
    if Expired(adopted.limit, p) && adopted.emptyScans == 0 {
      var committed := if TimeoutClassifies(c, adopted.limit, p) && !adopted.timedOut then Commit(c, adopted, p) else adopted;
      if TimeoutClassifies(c, adopted.limit, p) && !adopted.timedOut {
        CommitOk(c, adopted, p, p.armed);
      }
      TerminateOk(c, committed, p.armed);
      ArmOk(c, Terminate(committed, p.armed), p.armed);
    }
  }

  lemma CancelOk(c: Launch, s: Sup, p: Poll)
    requires SupOk(c, s, p.cancelled)
    ensures SupOk(c, HonourCancel(c, s, p), p.cancelled)
  {
    hide Terminate, Arm, TraceOk, HasTerm, HasKill, HasTimeout, TermBefore, Recorded, Deadline;
    if p.cancel.Some? {
      var noted := if s.timedOut then s
                   else if s.exit.None? then s.(cancelledBeforeExit := true)
                   else s.(cancelTooLate := true);
      TerminateOk(c, noted, p.cancelled);
      ArmOk(c, Terminate(noted, p.cancelled), p.cancelled);
    }
  }

  lemma YieldOk(c: Launch, s: Sup, p: Poll, now: nat)
    requires SupOk(c, s, now)
    ensures SupOk(c, HonourYield(c, s, p), now)
  {
    hide TraceOk, HasTerm, HasKill, HasTimeout, TermBefore, Recorded, Deadline;
    var recorded := s.trace + [YieldRecorded];
    assert recorded + [YieldSignal] == s.trace + [YieldRecorded, YieldSignal];
    assert YieldRecorded in recorded;
    TraceHas(s.trace, YieldRecorded);
    TraceHas(recorded, YieldSignal);
    TraceGrows(s.trace, YieldRecorded, c.grace);
    if !s.yieldSent && !s.termSent {
      TraceGrows(recorded, YieldSignal, c.grace);
    }
  }

  lemma EscalateOk(c: Launch, s: Sup, p: Poll)
    requires SupOk(c, s, p.last)
    ensures SupOk(c, Escalate(s, p), p.last)
  {
    hide TraceOk, HasTerm, HasKill, HasTimeout, Recorded, Deadline;
    if s.killAt.Some? && p.last >= s.killAt.value {
      TraceHas(s.trace, Kill(p.last));
      TraceGrows(s.trace, Kill(p.last), c.grace);
    }
  }

  lemma StepOk(c: Launch, s: Sup, p: Poll, now: nat)
    requires SupOk(c, s, now) && now <= p.checked && p.Ordered()
    ensures SupOk(c, Step(c, s, p), p.last)
  {
    SupLater(c, s, now, p.armed);
    SupLater(c, s, now, p.last);
    var scanned := Scan(s, p);
    assert SupOk(c, scanned, p.armed) && SupOk(c, scanned, p.last);
    hide SupOk, Scan, Enforce, HonourCancel, HonourYield, Escalate;
    if !s.done && !scanned.done {
      EnforceOk(c, scanned, p);
      var enforced := Enforce(c, scanned, p);
      SupLater(c, enforced, p.armed, p.cancelled);
      CancelOk(c, enforced, p);
      var cancelled := HonourCancel(c, enforced, p);
      SupLater(c, cancelled, p.cancelled, p.last);
      YieldOk(c, cancelled, p, p.last);
      EscalateOk(c, HonourYield(c, cancelled, p), p);
    }
  }

  /** The clock does not go back, within a poll or between polls. */
  predicate Clocked(polls: seq<Poll>) {
    && (forall p | p in polls :: p.Ordered())
    && (forall i | 0 <= i < |polls| - 1 :: polls[i].last <= polls[i + 1].checked)
  }

  function Now(polls: seq<Poll>): nat {
    if polls == [] then 0 else polls[|polls| - 1].last
  }

  /** For every sequence of polls the signals and records obey `TraceOk`. */
  lemma {:induction false} RunSignals(c: Launch, override: Option<LiveLimit>, polls: seq<Poll>)
    requires Clocked(polls)
    ensures SupOk(c, Run(c, override, polls), Now(polls)) && TraceOk(Run(c, override, polls).trace, c.grace)
  {
    if polls != [] {
      hide SupOk, Step, TraceOk;
      var init, p := polls[..|polls| - 1], polls[|polls| - 1];
      assert p in polls;
      RunSignals(c, override, init);
      StepOk(c, Run(c, override, init), p, Now(init));
      SupTrace(c, Run(c, override, polls), p.last);
    }
  }

  lemma SupTrace(c: Launch, s: Sup, now: nat)
    requires SupOk(c, s, now)
    ensures TraceOk(s.trace, c.grace)
  {
  }

  // -------------------------------------------------------------------------
  // The outcome in terms of what was seen
  // -------------------------------------------------------------------------

  /** The poll is past the limit on file. */
  predicate PastLimit(c: Launch, p: Poll) {
    var limit := if p.override.Some? then p.override.value.ms else c.limit;
    limit.Some? && p.checked >= limit.value
  }

  /** A cancel on file at a poll past its limit comes after the limit: it was requested later than the
      deadline, which can be represented, and later than the limit was installed. */
  predicate CancelledAfter(c: Launch, p: Poll)
    requires PastLimit(c, p) && p.cancel.Some?
  {
    var limit := if p.override.Some? then p.override.value else LiveLimit(c.limit, None);
    && c.startedAt + limit.ms.value <= I64_MAX && limit.ms.value <= I64_MAX && p.cancel.value.requestedAt.Some?
    && p.cancel.value.requestedAt.value > c.startedAt + limit.ms.value
    && (limit.setAt.Some? ==> p.cancel.value.requestedAt.value > limit.setAt.value)
  }

  /** At poll `k` the limit in force has passed, no cancel came first, the group is not empty and
      supervision has not ended. */
  ghost predicate TimeoutFires(c: Launch, polls: seq<Poll>, k: nat) {
    && k < |polls| && !Over(polls[..k])
    && !(ExitSeen(polls[..k + 1]) && polls[k].othersGone)
    && PastLimit(c, polls[k]) && (polls[k].cancel.Some? ==> CancelledAfter(c, polls[k]))
  }

  /** Precedence in instants. */
  lemma TimeoutPrecedence(c: Launch, p: Poll)
    ensures TimeoutClassifies(c, ObservedLimit(c, p.override), p) <==> PastLimit(c, p) && (p.cancel.Some? ==> CancelledAfter(c, p))
  {
  }

  ghost predicate TimeoutSeen(c: Launch, polls: seq<Poll>) {
    exists k: nat :: TimeoutFires(c, polls, k)
  }

  /** At poll `k` a cancel is on file, no exit has been seen and no timeout has fired. */
  ghost predicate CancelLands(c: Launch, polls: seq<Poll>, k: nat) {
    k < |polls| && polls[k].cancel.Some? && !ExitSeen(polls[..k + 1]) && !TimeoutSeen(c, polls[..k + 1])
  }

  ghost predicate CancelSeen(c: Launch, polls: seq<Poll>) {
    exists k: nat :: CancelLands(c, polls, k)
  }

  lemma FiresPrefix(c: Launch, polls: seq<Poll>, p: Poll)
    ensures TimeoutSeen(c, polls + [p]) <==> TimeoutSeen(c, polls) || TimeoutFires(c, polls + [p], |polls|)
  {
    hide Over, ExitSeen, PastLimit, CancelledAfter;
    var all := polls + [p];
    forall k: nat | k < |polls| ensures TimeoutFires(c, all, k) == TimeoutFires(c, polls, k) {
      assert all[..k] == polls[..k] && all[..k + 1] == polls[..k + 1];
    }
    if TimeoutSeen(c, polls) {
      var k: nat :| TimeoutFires(c, polls, k);
      assert TimeoutFires(c, all, k);
    }
    if TimeoutSeen(c, all) {
      var k: nat :| TimeoutFires(c, all, k);
      assert k < |polls| ==> TimeoutFires(c, polls, k);
    }
  }

  lemma LandsPrefix(c: Launch, polls: seq<Poll>, p: Poll)
    ensures CancelSeen(c, polls + [p]) <==> CancelSeen(c, polls) || CancelLands(c, polls + [p], |polls|)
  {
    hide TimeoutSeen, ExitSeen;
    var all := polls + [p];
    forall k: nat | k < |polls| ensures CancelLands(c, all, k) == CancelLands(c, polls, k) {
      assert all[..k + 1] == polls[..k + 1];
    }
    if CancelSeen(c, polls) {
      var k: nat :| CancelLands(c, polls, k);
      assert CancelLands(c, all, k);
    }
    if CancelSeen(c, all) {
      var k: nat :| CancelLands(c, all, k);
      assert k < |polls| ==> CancelLands(c, polls, k);
    }
  }

  lemma EnforceFlags(c: Launch, s: Sup, p: Poll)
    ensures var r := Enforce(c, s, p);
            && r.timedOut == (s.timedOut || (s.emptyScans == 0 && TimeoutClassifies(c, ObservedLimit(c, p.override), p)))
            && r.cancelledBeforeExit == s.cancelledBeforeExit
  {
    hide Terminate, Arm, Commit, TimeoutWinsOverCancel, Deadline;
  }

  lemma CancelFlags(c: Launch, s: Sup, p: Poll)
    ensures var r := HonourCancel(c, s, p);
            && r.cancelledBeforeExit == (s.cancelledBeforeExit || (p.cancel.Some? && s.exit.None? && !s.timedOut))
            && (p.cancel.Some? ==> r.termSent && (p.cancel.value.force ==> r.killSent || r.killAt.Some?))
  {
    hide Terminate, Arm;
  }

  lemma StepFlags(c: Launch, s: Sup, p: Poll)
    requires !s.done
    ensures var o, r := Scan(s, p), Step(c, s, p);
            && r.timedOut == (s.timedOut || (o.emptyScans == 0 && TimeoutClassifies(c, ObservedLimit(c, p.override), p)))
            && r.cancelledBeforeExit == (s.cancelledBeforeExit || (!o.done && p.cancel.Some? && o.exit.None? && !r.timedOut))
  {
    hide Scan, Enforce, HonourYield, Escalate, TimeoutClassifies, HonourCancel;
    ScanKeeps(s, p);
    EnforceFlags(c, Scan(s, p), p);
    CancelFlags(c, Enforce(c, Scan(s, p), p), p);
  }

  /** Timeouts and cancels count exactly when the polls say so. */
  lemma {:induction false} RunFlags(c: Launch, override: Option<LiveLimit>, polls: seq<Poll>)
    ensures Run(c, override, polls).timedOut <==> TimeoutSeen(c, polls)
    ensures Run(c, override, polls).cancelledBeforeExit <==> CancelSeen(c, polls)
  {
    if polls != [] {
      hide Step, Scan, Over, Confirmed, TimeoutClassifies, TimeoutSeen, CancelSeen;
      var init, p := polls[..|polls| - 1], polls[|polls| - 1];
      assert polls == init + [p];
      RunFlags(c, override, init);
      FiresPrefix(c, init, p);
      LandsPrefix(c, init, p);
      EndsAfterTwoEmptyScans(c, override, init);
      FlagsStep(c, override, init, p);
    } else {
      assert !TimeoutSeen(c, []) && !CancelSeen(c, []);
    }
  }

  lemma FlagsStep(c: Launch, override: Option<LiveLimit>, init: seq<Poll>, p: Poll)
    requires var s := Run(c, override, init);
             && (s.timedOut <==> TimeoutSeen(c, init)) && (s.cancelledBeforeExit <==> CancelSeen(c, init))
    ensures var r := Step(c, Run(c, override, init), p);
            && (r.timedOut <==> TimeoutSeen(c, init) || TimeoutFires(c, init + [p], |init|))
            && (r.cancelledBeforeExit <==> CancelSeen(c, init) || CancelLands(c, init + [p], |init|))
  {
    hide Step, Confirmed, TimeoutClassifies, TimeoutSeen, CancelSeen, ExitSeen, Over, Run, PastLimit, CancelledAfter;
    TimeoutPrecedence(c, p);
    var s := Run(c, override, init);
    var all := init + [p];
    assert all[..|init|] == init && all[..|init| + 1] == all;
    EndsAfterTwoEmptyScans(c, override, init);
    ExitSeenStep(init, p);
    FiresPrefix(c, init, p);
    if s.done {
      OverHasExit(init);
      StepEnded(c, s, p);
    } else {
      EndsStep(c, override, init, p);
      StepFlags(c, s, p);
    }
  }

  lemma StepEnded(c: Launch, s: Sup, p: Poll)
    requires s.done
    ensures Step(c, s, p) == s
  {
  }

  lemma OverHasExit(polls: seq<Poll>)
    requires Over(polls)
    ensures ExitSeen(polls)
  {
    var i: nat :| Confirmed(polls, i);
    assert forall p | p in polls[..i] :: p in polls;
  }

  /** The reported outcome, in terms of what the runner saw and sent: a yield is reported exactly
      when its signal was sent, the leader exited with the declared code, no timeout fired and no
      cancel landed before the exit. */
  lemma RunOutcome(c: Launch, override: Option<LiveLimit>, polls: seq<Poll>)
    requires Clocked(polls) && Over(polls)
    ensures var s := Run(c, override, polls);
            && s.done && s.exit.Some?
            && (Classify(c, s).TimedOut? <==> TimeoutSeen(c, polls))
            && (Classify(c, s).Cancelled? <==> CancelSeen(c, polls) && !TimeoutSeen(c, polls))
            && (Classify(c, s).Yielded? <==> YieldSignal in s.trace && Some(s.exit.value) == DeclaredExit(c)
                                             && !TimeoutSeen(c, polls) && !CancelSeen(c, polls))
  {
    hide Over, TimeoutSeen, CancelSeen, Run;
    EndsAfterTwoEmptyScans(c, override, polls);
    RunFlags(c, override, polls);
    RunSignals(c, override, polls);
    DoneHasExit(c, override, polls);
  }

  /** A cancel that came first decides: if every poll past its limit finds one requested no later than the
      deadline, or no later than the limit was installed, the outcome is not a timeout. */
  lemma EarlierCancelDecides(c: Launch, override: Option<LiveLimit>, polls: seq<Poll>)
    requires forall p | p in polls ::
               var limit := if p.override.Some? then p.override.value else LiveLimit(c.limit, None);
               limit.ms.Some? && p.checked >= limit.ms.value ==>
                 && p.cancel.Some? && p.cancel.value.requestedAt.Some?
                 && (p.cancel.value.requestedAt.value <= c.startedAt + limit.ms.value
                     || (limit.setAt.Some? && p.cancel.value.requestedAt.value <= limit.setAt.value))
    ensures !Classify(c, Run(c, override, polls)).TimedOut?
  {
    RunFlags(c, override, polls);
    hide Run, Over, ExitSeen;
    forall k: nat ensures !TimeoutFires(c, polls, k) {
      assert k < |polls| ==> polls[k] in polls;
    }
  }

  /** Otherwise the timeout decides: one poll that finds the group not empty and its limit passed, with a
      deadline that can be represented and no cancel, or one dated after both the deadline and the
      installation of the limit, makes the outcome a timeout, whatever comes later. */
  lemma LaterCancelTimesOut(c: Launch, override: Option<LiveLimit>, polls: seq<Poll>, k: nat)
    requires k < |polls| && !Over(polls[..k]) && !(ExitSeen(polls[..k + 1]) && polls[k].othersGone)
    requires var p := polls[k];
             var limit := if p.override.Some? then p.override.value else LiveLimit(c.limit, None);
             && limit.ms.Some? && p.checked >= limit.ms.value
             && limit.ms.value <= I64_MAX && c.startedAt + limit.ms.value <= I64_MAX
             && (p.cancel.Some? ==>
                   && p.cancel.value.requestedAt.Some? && p.cancel.value.requestedAt.value > c.startedAt + limit.ms.value
                   && (limit.setAt.Some? ==> p.cancel.value.requestedAt.value > limit.setAt.value))
    ensures Classify(c, Run(c, override, polls)).TimedOut?
  {
    RunFlags(c, override, polls);
    hide Run, Over, ExitSeen;
    assert TimeoutFires(c, polls, k);
  }

  function DeclaredExit(c: Launch): Option<Status> {
    if c.yieldCode.Some? then Some(Code(c.yieldCode.value)) else None
  }

  lemma {:induction false} DoneHasExit(c: Launch, override: Option<LiveLimit>, polls: seq<Poll>)
    ensures var s := Run(c, override, polls); (s.done || s.emptyScans > 0) ==> s.exit.Some?
  {
    if polls != [] {
      hide Step;
      DoneHasExit(c, override, polls[..|polls| - 1]);
      StepScan(c, Run(c, override, polls[..|polls| - 1]), polls[|polls| - 1]);
    }
  }

  /** Control requests take effect in the poll that sees them: SIGTERM for a cancel or an expired
      limit, a kill armed or sent when the cancel is forced or the limit expired, a yield signal when
      nothing stands against it; and no kill stays overdue. */
  lemma StepReacts(c: Launch, s: Sup, p: Poll)
    requires !Step(c, s, p).done
    ensures var r := Step(c, s, p);
            && (p.cancel.Some? ==> r.termSent)
            && (p.cancel.Some? && p.cancel.value.force ==> r.killSent || r.killAt.Some?)
            && (Expired(LimitInForce(c, s, p), p) && !(r.exit.Some? && p.othersGone) ==> r.termSent && (r.killSent || r.killAt.Some?))
            && (!s.timedOut && PastLimit(c, p) && !(r.exit.Some? && p.othersGone) ==> r.termSent && (r.killSent || r.killAt.Some?))
            && (c.yieldCode.Some? && p.yieldRequested && p.yieldWritten && !p.exitedMeanwhile && r.exit.None? && !r.termSent ==> r.yieldSent)
            && (r.killAt.Some? ==> p.last < r.killAt.value)
            && (r.killAt.Some? ==> r.killAt == s.killAt || r.killAt.value == p.armed + c.grace || r.killAt.value == p.cancelled + c.grace)
  {
    hide Scan, Enforce, HonourCancel;
    var scanned := Scan(s, p);
    ScanKeeps(s, p);
    ScanFinds(s, p);
    EnforceReacts(c, scanned, p);
    EnforceArms(c, scanned, p);
    CancelFlags(c, Enforce(c, scanned, p), p);
    CancelArms(c, Enforce(c, scanned, p), p);
  }

  lemma EnforceArms(c: Launch, s: Sup, p: Poll)
    ensures var r := Enforce(c, s, p); r.killAt == s.killAt || r.killAt == Some(p.armed + c.grace)
  {
    hide Terminate, Commit, TimeoutClassifies, ObservedLimit;
  }

  lemma CancelArms(c: Launch, s: Sup, p: Poll)
    ensures var r := HonourCancel(c, s, p); r.killAt == s.killAt || r.killAt == Some(p.cancelled + c.grace)
  {
    hide Terminate;
  }

  /** The limit that fired, or the one on file now. */
  function LimitInForce(c: Launch, s: Sup, p: Poll): LiveLimit {
    if s.timedOut then s.limit else ObservedLimit(c, p.override)
  }

  lemma ScanFinds(s: Sup, p: Poll)
    ensures Scan(s, p).emptyScans == 0 <==> !(Scan(s, p).exit.Some? && p.othersGone)
  {
  }

  lemma ScanKeeps(s: Sup, p: Poll)
    ensures Scan(s, p) == s.(exit := Scan(s, p).exit, emptyScans := Scan(s, p).emptyScans, done := Scan(s, p).done)
    ensures Scan(s, p).done <==> Scan(s, p).emptyScans >= 2
  {
  }

  lemma EnforceReacts(c: Launch, s: Sup, p: Poll)
    ensures var r := Enforce(c, s, p);
            Expired(LimitInForce(c, s, p), p) && s.emptyScans == 0 ==> r.termSent && (r.killSent || r.killAt.Some?)
  {
    hide Terminate, Arm, Commit, TimeoutClassifies, Deadline, ObservedLimit;
  }
}
