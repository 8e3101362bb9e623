/**
 Keyed mutations. A key is stored, with the canonical request and the reply, in
 the same transaction as the mutation itself, so a repeated request is answered
 from the record. The hash of a canonical request is taken to be injective, so
 the record holds the canonical request.
 */
module Idempotency {
  import opened Domain
  import opened Tables
  import opened Dependencies
  import opened Submissions
  import opened Transactions

  type Key = string

  datatype Reply = Submitted(job: JobId, row: Job) | JobReply(job: JobId, row: Job) | PausedReply(paused: bool)

  datatype Stored = Stored(request: Op, reply: Reply)

  datatype Served = Served(db: Db, operations: map<Key, Stored>)

  datatype Response = Ok(reply: Reply) | Refused(error: ErrorCode) | Conflict

  datatype Performed = Done(db: Db, reply: Reply) | NotDone(error: ErrorCode)

  /** What the request hash is taken over. The probe's answer is not part of a request. */
  function CanonicalOp(op: Op): Op {
    match op
    case Submit(params) => Submit(params.(dependencies := Canonical(params.dependencies)))
    case RecoverResolve(j, number, how, alive) => RecoverResolve(j, number, how, false)
    case _ => op
  }

  function JobAnswer(db: Db, j: JobId, submitted: bool): Performed {
    if j !in db.jobs then NotDone(NotFound)
    else Done(db, if submitted then Submitted(j, db.jobs[j]) else JobReply(j, db.jobs[j]))
  }

  /** The mutation and its reply, read in the same transaction. */
  function Perform(db: Db, op: Op, now: int): Performed {
    match Apply(db, op, now)
    case Rejected(error) => NotDone(error)
    case Accepted(d) =>
      match op
      case Submit(_) => JobAnswer(d, d.lastJob, true)
      case Pause => Done(d, PausedReply(true))
      case Unpause => Done(d, PausedReply(false))
      case _ => JobAnswer(d, op.job, false)
  }

  function Answer(s: Served, key: Key, op: Op, now: int): Response {
    if key in s.operations then
      if s.operations[key].request == CanonicalOp(op) then Ok(s.operations[key].reply) else Conflict
    else
      match Perform(s.db, op, now)
      case Done(d, reply) => Ok(reply)
      case NotDone(error) => Refused(error)
  }

  function Handle(s: Served, key: Key, op: Op, now: int): Served {
    if key in s.operations then s
    else
      match Perform(s.db, op, now)
      case Done(d, reply) => Served(d, s.operations[key := Stored(CanonicalOp(op), reply)])
      case NotDone(_) => s
  }

  // -------------------------------------------------------------------------
  // Runs of requests, with background transactions in between
  // -------------------------------------------------------------------------

  datatype Event = Request(key: Key, op: Op, now: int) | Background(step: Step, now: int)

  function Serve(s: Served, e: Event): Served {
    match e
    case Request(key, op, now) => Handle(s, key, op, now)
    case Background(step, now) => if Enabled(s.db, step) then s.(db := Next(s.db, step, now)) else s
  }

  function ServeAll(s: Served, events: seq<Event>): Served
    decreases |events|
  {
    if events == [] then s else ServeAll(Serve(s, events[0]), events[1..])
  }

  predicate IsRepeat(s: Served, e: Event) {
    e.Request? && e.key in s.operations
  }

  /** The events without the requests whose key is stored when they arrive. */
  function Distilled(s: Served, events: seq<Event>): seq<Event>
    decreases |events|
  {
    if events == [] then []
    else if IsRepeat(s, events[0]) then Distilled(s, events[1..])
    else [events[0]] + Distilled(Serve(s, events[0]), events[1..])
  }

  ghost predicate NoRepeats(s: Served, events: seq<Event>)
    decreases |events|
  {
    events == [] || (!IsRepeat(s, events[0]) && NoRepeats(Serve(s, events[0]), events[1..]))
  }

  /** Repeats of stored keys leave no trace: the run without them ends in the same state. */
  lemma {:induction false} RepeatsLeaveNoTrace(s: Served, events: seq<Event>)
    ensures ServeAll(s, Distilled(s, events)) == ServeAll(s, events)
    ensures NoRepeats(s, Distilled(s, events))
    decreases |events|
  {
    hide Handle;
    if events != [] {
      if IsRepeat(s, events[0]) {
        RepeatChangesNothing(s, events[0]);
        RepeatsLeaveNoTrace(s, events[1..]);
      } else {
        RepeatsLeaveNoTrace(Serve(s, events[0]), events[1..]);
        var rest := Distilled(Serve(s, events[0]), events[1..]);
        assert ([events[0]] + rest)[1..] == rest;
      }
    }
  }

  lemma RepeatChangesNothing(s: Served, e: Event)
    requires IsRepeat(s, e)
    ensures Serve(s, e) == s
  {
  }

  /** A stored record is never replaced. */
  lemma {:induction false} RecordsStay(s: Served, events: seq<Event>, key: Key)
    requires key in s.operations
    ensures key in ServeAll(s, events).operations && ServeAll(s, events).operations[key] == s.operations[key]
    decreases |events|
  {
    if events != [] {
      hide Perform, CanonicalOp;
      RecordsStay(Serve(s, events[0]), events[1..], key);
    }
  }

  /** After a request was carried out, whatever happens in between, the same request
      gets the same reply and another request under the key is a conflict; neither
      changes anything. */
  lemma RepeatAnswered(s: Served, key: Key, op: Op, now: int, between: seq<Event>, again: Op, later: int)
    requires key !in s.operations && Perform(s.db, op, now).Done?
    ensures var t := ServeAll(Handle(s, key, op, now), between);
            && Handle(t, key, again, later) == t
            && Answer(t, key, again, later) ==
               if CanonicalOp(again) == CanonicalOp(op) then Answer(s, key, op, now) else Conflict
  {
    hide Perform, CanonicalOp, ServeAll;
    RecordsStay(Handle(s, key, op, now), between, key);
  }

  /** Two requests ask for the same: submissions that agree in everything but the spelling of their
      dependencies and store the same edges, and otherwise equal requests. What the probe answers is
      not part of a request. */
  ghost predicate SameRequest(a: Op, b: Op) {
    if a.Submit? && b.Submit? then
      && a.params.(dependencies := []) == b.params.(dependencies := [])
      && Collapse(a.params.dependencies) == Collapse(b.params.dependencies)
    else if a.RecoverResolve? && b.RecoverResolve? then
      a.job == b.job && a.number == b.number && a.resolveAs == b.resolveAs
    else a == b
  }

  lemma SameRequestSameForm(a: Op, b: Op)
    ensures CanonicalOp(a) == CanonicalOp(b) <==> SameRequest(a, b)
  {
    if a.Submit? && b.Submit? {
      SameCanonicalIffSameEdges(a.params.dependencies, b.params.dependencies);
      SubmitParts(a.params, b.params);
    }
  }

  lemma SubmitParts(a: SubmitParams, b: SubmitParams)
    ensures a.(dependencies := Canonical(a.dependencies)) == b.(dependencies := Canonical(b.dependencies)) <==>
            a.(dependencies := []) == b.(dependencies := []) && Canonical(a.dependencies) == Canonical(b.dependencies)
  {
  }

  /** A key recognises the request it was used for: after `op` was carried out under it, and whatever
      happens in between, a request under the key gets the first reply if and only if it asks for the
      same, and is a conflict otherwise. */
  lemma RepeatRecognised(s: Served, key: Key, op: Op, now: int, between: seq<Event>, again: Op, later: int)
    requires key !in s.operations && Perform(s.db, op, now).Done?
    ensures var t := ServeAll(Handle(s, key, op, now), between);
            && Handle(t, key, again, later) == t
            && Answer(t, key, again, later) == if SameRequest(op, again) then Ok(Perform(s.db, op, now).reply) else Conflict
  {
    hide Perform, CanonicalOp, ServeAll, SameRequest;
    RepeatAnswered(s, key, op, now, between, again, later);
    SameRequestSameForm(again, op);
    SameRequestSymmetric(again, op);
  }

  lemma SameRequestSymmetric(a: Op, b: Op)
    ensures SameRequest(a, b) <==> SameRequest(b, a)
  {
  }

  /** Two submissions under one key, spelled out. */
  lemma ResubmitRecognised(s: Served, key: Key, a: SubmitParams, now: int, between: seq<Event>, b: SubmitParams, later: int)
    requires key !in s.operations && Perform(s.db, Submit(a), now).Done?
    ensures var t := ServeAll(Handle(s, key, Submit(a), now), between);
            && Handle(t, key, Submit(b), later) == t
            && Answer(t, key, Submit(b), later) ==
               if a.(dependencies := []) == b.(dependencies := []) && Collapse(a.dependencies) == Collapse(b.dependencies)
               then Answer(s, key, Submit(a), now) else Conflict
  {
    hide Perform, ServeAll, Collapse;
    RepeatRecognised(s, key, Submit(a), now, between, Submit(b), later);
  }

  /** Requests with one canonical form are carried out alike. */
  lemma CanonicalSameEffect(db: Db, a: Op, b: Op, now: int)
    requires CanonicalOp(a) == CanonicalOp(b) && (a.RecoverResolve? ==> b.RecoverResolve? && a.stillAlive == b.stillAlive)
    ensures Perform(db, a, now) == Perform(db, b, now)
  {
    hide Advance, JobAnswer, CancelJob, YieldJob, HoldJob, ReleaseJob, RetryJob, SetLimit, SetJobPriority, SetJobTimeLimit, ResolveRecovery;
    if a.Submit? {
      SameEdgesSameInsert(db, a.params, b.params);
    }
  }

  lemma SameEdgesSameInsert(db: Db, a: SubmitParams, b: SubmitParams)
    requires a.(dependencies := Canonical(a.dependencies)) == b.(dependencies := Canonical(b.dependencies))
    ensures InsertJob(db, a) == InsertJob(db, b)
    ensures ParentsExist(db, a.dependencies) == ParentsExist(db, b.dependencies)
  {
    SameCanonicalIffSameEdges(a.dependencies, b.dependencies);
    ParentsFromEdges(db, a.dependencies);
    ParentsFromEdges(db, b.dependencies);
  }

  lemma ParentsFromEdges(db: Db, deps: seq<DependencySpec>)
    ensures ParentsExist(db, deps) <==> forall j | j in Collapse(deps) :: 0 < j && j in db.jobs
  {
    CollapseMeaning(deps);
  }
}
