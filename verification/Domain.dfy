/** Identifiers, states and value types shared by every part of the queue. */
module Domain {

  type JobId = nat
  type AttemptId = nat

  datatype Option<+T> = None | Some(value: T)

  datatype JobState =
    | Held | Queued | Starting | Running
    | Succeeded | Failed | Cancelled | Lost | Skipped
    | NeedsAttention
  {
    predicate IsTerminal() {
      Succeeded? || Failed? || Cancelled? || Lost? || Skipped?
    }

    /** Terminal states a manual retry may leave. */
    predicate IsRetryable() {
      Failed? || Lost?
    }

    /** Queued or held: the job waits and holds no lease. */
    predicate IsWaiting() {
      Queued? || Held?
    }

    /** The job owns a live attempt. */
    predicate IsActive() {
      Starting? || Running? || NeedsAttention?
    }
  }

  datatype AttemptState =
    | Prepared | Authorized | Running | Orphaned | Quarantined
    | Succeeded | Failed | Cancelled | Lost | Yielded
  {
    predicate IsTerminal() {
      Succeeded? || Failed? || Cancelled? || Lost? || Yielded?
    }

    /** Live attempts that still make progress; an orphan or a quarantined
        attempt keeps its lease but does not advance. */
    predicate IsAdvancing() {
      Prepared? || Authorized? || Running?
    }
  }

  /** The job states that go with a live attempt in a given state. */
  predicate StatesAgree(job: JobState, attempt: AttemptState) {
    match attempt
    case Prepared | Authorized => job.Starting?
    case Running => job.Running?
    case Orphaned | Quarantined => job.NeedsAttention?
    case _ => false
  }

  datatype Condition = OnSuccess | OnTerminal

  datatype Resolution = Satisfied | Violated

  /** Whether a cancellation loses to a time-limit deadline. `limitSetAt` is when
      the current limit was installed; None means the attempt launched with it. */
  predicate TimeoutWinsOverCancel(cancelledAt: int, deadline: int, limitSetAt: Option<int>) {
    cancelledAt > deadline && (limitSetAt.None? || cancelledAt > limitSetAt.value)
  }

  /** The instant from which the grace before SIGKILL is measured. */
  function TimeoutKillAnchor(deadline: int, limitSetAt: Option<int>, observedAt: Option<int>): (anchor: int) {
    if observedAt.Some? then observedAt.value
    else if limitSetAt.Some? && deadline < limitSetAt.value then limitSetAt.value
    else deadline
  }

  lemma SubsetCount<T>(a: set<T>, b: set<T>)
    requires a <= b
    ensures |a| <= |b|
  {
    assert b == a + (b - a);
  }
}
