/**
 The follow-check deduplicator. A finding key is reported once and stays active
 until `clearAfter` accepted, fresh observations in a row omit it.
 */
module FollowChecks {
  import opened Domain

  type Key = string

  type ClearAfter = n: nat | 1 <= n <= 1000 witness 2

  const MAX_FINDINGS: nat := 64
  const MAX_ACTIVE: nat := 256
  const MAX_KEY_BYTES: nat := 128
  const MAX_MESSAGE_BYTES: nat := 2048
  const ERROR_KEY: Key := "__mlq_check_error"

  datatype ObservedFinding = ObservedFinding(key: Key, message: string, step: Option<nat>)

  datatype Observation = Observation(findings: seq<ObservedFinding>, step: Option<nat>)

  datatype Finding = Finding(key: Key, message: string, step: Option<nat>)

  datatype Outcome = Accepted(findings: seq<Finding>) | Rejected

  // -------------------------------------------------------------------------
  // Text
  // -------------------------------------------------------------------------

  /** Length of a character in UTF-8. */
  function CharBytes(c: char): nat {
    if c as int < 0x80 then 1 else if c as int < 0x800 then 2 else if c as int < 0x1_0000 then 3 else 4
  }

  function Bytes(s: string): nat {
    if s == "" then 0 else Bytes(s[..|s| - 1]) + CharBytes(s[|s| - 1])
  }

  /** The Unicode property White_Space. */
  predicate IsWhite(c: char) {
    var n := c as int;
    || 0x9 <= n <= 0xd || n == 0x20 || n == 0x85 || n == 0xa0 || n == 0x1680 || 0x2000 <= n <= 0x200a
    || n == 0x2028 || n == 0x2029 || n == 0x202f || n == 0x205f || n == 0x3000
  }

  predicate IsBlank(s: string) {
    forall i | 0 <= i < |s| :: IsWhite(s[i])
  }

  // -------------------------------------------------------------------------
  // One observation
  // -------------------------------------------------------------------------

  predicate FindingOk(f: ObservedFinding) {
    && !IsBlank(f.key) && Bytes(f.key) <= MAX_KEY_BYTES && f.key != ERROR_KEY
    && !IsBlank(f.message) && Bytes(f.message) <= MAX_MESSAGE_BYTES
  }

  ghost predicate WellFormed(o: Observation) {
    && |o.findings| <= MAX_FINDINGS
    && (forall f | f in o.findings :: FindingOk(f))
    && (forall i, j | 0 <= i < j < |o.findings| :: o.findings[i].key != o.findings[j].key)
  }

  function Keys(findings: seq<ObservedFinding>): set<Key> {
    set f | f in findings :: f.key
  }

  /** A cached result: its step is not beyond the last one. */
  predicate Stale(o: Observation, lastStep: Option<nat>) {
    o.step.Some? && lastStep.Some? && o.step.value <= lastStep.value
  }

  predicate Overflows(active: map<Key, nat>, keys: set<Key>) {
    |active| + |keys - active.Keys| > MAX_ACTIVE
  }

  /** Reported: what was not active, in the order observed. */
  function Fresh(findings: seq<ObservedFinding>, active: map<Key, nat>, step: Option<nat>): seq<Finding> {
    if findings == [] then []
    else
      var init, f := findings[..|findings| - 1], findings[|findings| - 1];
      Fresh(init, active, step)
      + if f.key in active then [] else [Finding(f.key, f.message, if f.step.Some? then f.step else step)]
  }

  /** Whether a key that was active with `absent` omissions stays. */
  predicate Stays(keys: set<Key>, key: Key, absent: nat, clearAfter: ClearAfter) {
    key in keys || absent + 1 < clearAfter
  }

  function Retained(active: map<Key, nat>, keys: set<Key>, clearAfter: ClearAfter): map<Key, nat> {
    map k | k in active && Stays(keys, k, active[k], clearAfter) :: if k in keys then 0 else active[k] + 1
  }

  function NewlyActive(active: map<Key, nat>, keys: set<Key>, clearAfter: ClearAfter): map<Key, nat> {
    Retained(active, keys, clearAfter) + map k | k in keys :: 0
  }

  class CheckState {
    const clearAfter: ClearAfter
    var active: map<Key, nat>
    var lastStep: Option<nat>
    var failed: bool
    var deadline: int

    constructor (clearAfter: ClearAfter, now: int)
      ensures this.clearAfter == clearAfter && active == map[] && lastStep == None && !failed && deadline == now
    {
      this.clearAfter := clearAfter;
      active, lastStep, failed, deadline := map[], None, false, now;
    }

    /** The keys, or None at the first finding that is not allowed. */
    method Validate(o: Observation) returns (keys: Option<set<Key>>)
      ensures keys == if WellFormed(o) then Some(Keys(o.findings)) else None
    {
      hide Bytes, IsBlank;
      if |o.findings| > MAX_FINDINGS {
        return None;
      }
      var seen: set<Key> := {};
      var i := 0;
      while i < |o.findings|
        invariant i <= |o.findings| && seen == Keys(o.findings[..i])
        invariant forall k | 0 <= k < i :: FindingOk(o.findings[k]) && o.findings[k].key in seen
        invariant forall j, k | 0 <= j < k < i :: o.findings[j].key != o.findings[k].key
      {
        var f := o.findings[i];
        assert f in o.findings && o.findings[..i + 1] == o.findings[..i] + [f];
        if IsBlank(f.key) || Bytes(f.key) > MAX_KEY_BYTES || f.key == ERROR_KEY {
          return None;
        }
        if f.key in seen {
          var g :| g in o.findings[..i] && g.key == f.key;
          return None;
        }
        if IsBlank(f.message) || Bytes(f.message) > MAX_MESSAGE_BYTES {
          return None;
        }
        seen := seen + {f.key};
        i := i + 1;
      }
      assert o.findings[..|o.findings|] == o.findings;
      return Some(seen);
    }

    /** Keep what was seen again or has not been absent long enough. */
    method Retain(keys: set<Key>)
      modifies this`active
      ensures active == Retained(old(active), keys, clearAfter)
    {
      hide Partly;
      ghost var before := active;
      var left := active.Keys;
      PartlyEnds(before, keys, clearAfter);
      while left != {}
        invariant left <= before.Keys && active == Partly(before, left, keys, clearAfter)
        decreases left
      {
        var k :| k in left;
        RetainOne(before, left, k, keys, clearAfter);
        if k in keys {
          active := active[k := 0];
        } else if active[k] + 1 < clearAfter {
          active := active[k := active[k] + 1];
        } else {
          active := active - {k};
        }
        left := left - {k};
      }
    }

    /** Report what is not active and make it active. */
    method Report(o: Observation) returns (findings: seq<Finding>)
      requires WellFormed(o)
      modifies this`active
      ensures findings == Fresh(o.findings, old(active), o.step)
      ensures active == Activated(old(active), Keys(o.findings))
    {
      hide Activated, Keys;
      ghost var before := active;
      findings := [];
      var i := 0;
      NothingActivated(before);
      while i < |o.findings|
        invariant i <= |o.findings| && findings == Fresh(o.findings[..i], before, o.step)
        invariant active == Activated(before, Keys(o.findings[..i]))
      {
        var f := o.findings[i];
        assert o.findings[..i + 1] == o.findings[..i] + [f];
        NextKey(o, i);
        ActivatedOne(before, Keys(o.findings[..i]), f.key);
        if f.key !in active {
          active := active[f.key := 0];
          findings := findings + [Finding(f.key, f.message, if f.step.Some? then f.step else o.step)];
        }
        i := i + 1;
      }
      assert o.findings[..|o.findings|] == o.findings;
    }

    /** A rejected observation changes nothing; a stale one only clears the failure mark. */
    method Observe(o: Observation) returns (outcome: Outcome)
      modifies this
      ensures var before := old(State());
              State() == Observed(before, o, clearAfter) && outcome == Verdict(before, o)
      ensures deadline == old(deadline)
    {
      hide WellFormed, Fresh, Keys, Retained, Activated, NewlyActive, Overflows, Stale;
      var valid := Validate(o);
      if valid.None? {
        return Rejected;
      }
      var keys := valid.value;
      if Stale(o, lastStep) {
        failed := false;
        return Accepted([]);
      }
      if Overflows(active, keys) {
        return Rejected;
      }
      failed := false;
      if o.step.Some? {
        lastStep := o.step;
      }
      FreshAfterRetain(o.findings, active, o.step, clearAfter);
      ActivatedIsNewlyActive(active, keys, clearAfter);
      Retain(keys);
      var findings := Report(o);
      return Accepted(findings);
    }

    /** Once per run of failures. */
    method Failure(message: string) returns (finding: Option<Finding>)
      modifies this`failed
      ensures failed
      ensures finding == if old(failed) then None else Some(Finding(ERROR_KEY, Clipped(message), None))
    {
      if failed {
        return None;
      }
      failed := true;
      var end: nat := |message|;
      assert message[..end] == message;
      while Bytes(message[..end]) > MAX_MESSAGE_BYTES
        invariant end <= |message| && Clipped(message[..end]) == Clipped(message)
      {
        assert message[..end][..end - 1] == message[..end - 1];
        end := end - 1;
      }
      return Some(Finding(ERROR_KEY, message[..end], None));
    }

    method Reset(now: int)
      modifies this
      ensures State() == Memory(map[], None, false) && deadline == now
    {
      deadline := now;
      active, lastStep, failed := map[], None, false;
    }

    function State(): Memory
      reads this
    {
      Memory(active, lastStep, failed)
    }
  }

  /** A new attempt starts every check afresh and makes it due. */
  method ResetAttempt(checks: seq<CheckState>, now: int)
    modifies set c | c in checks
    ensures forall c | c in checks :: c.State() == Memory(map[], None, false) && c.deadline == now
  {
    var i := 0;
    while i < |checks|
      invariant i <= |checks|
      invariant forall k | 0 <= k < i :: checks[k].State() == Memory(map[], None, false) && checks[k].deadline == now
    {
      checks[i].Reset(now);
      i := i + 1;
    }
  }

  datatype Memory = Memory(active: map<Key, nat>, lastStep: Option<nat>, failed: bool)

  /** An observation that counts: allowed, beyond the last step, and within the bound on active keys. */
  ghost predicate Counts(s: Memory, o: Observation) {
    WellFormed(o) && !Stale(o, s.lastStep) && !Overflows(s.active, Keys(o.findings))
  }

  ghost function Observed(s: Memory, o: Observation, clearAfter: ClearAfter): Memory {
    if Counts(s, o) then
      Memory(NewlyActive(s.active, Keys(o.findings), clearAfter), if o.step.Some? then o.step else s.lastStep, false)
    else if WellFormed(o) && Stale(o, s.lastStep) then s.(failed := false)
    else s
  }

  ghost function Verdict(s: Memory, o: Observation): Outcome {
    if Counts(s, o) then Accepted(Fresh(o.findings, s.active, o.step))
    else if WellFormed(o) && Stale(o, s.lastStep) then Accepted([])
    else Rejected
  }

  /** The longest prefix that fits. */
  function Clipped(message: string): string {
    if Bytes(message) <= MAX_MESSAGE_BYTES then message else Clipped(message[..|message| - 1])
  }

  lemma {:induction false} ClippedFits(message: string)
    ensures Clipped(message) <= message && Bytes(Clipped(message)) <= MAX_MESSAGE_BYTES
    ensures forall longer: string | Clipped(message) < longer <= message :: Bytes(longer) > MAX_MESSAGE_BYTES
  {
    if Bytes(message) > MAX_MESSAGE_BYTES {
      var shorter := message[..|message| - 1];
      ClippedFits(shorter);
      forall longer: string | Clipped(message) < longer <= message ensures Bytes(longer) > MAX_MESSAGE_BYTES {
        if longer != message {
          assert longer <= shorter;
        }
      }
    }
  }

  // -------------------------------------------------------------------------
  // Steps of the loops
  // -------------------------------------------------------------------------

  /** Retention with the keys in `left` still to be looked at. */
  ghost function Partly(before: map<Key, nat>, left: set<Key>, keys: set<Key>, clearAfter: ClearAfter): map<Key, nat>
    requires left <= before.Keys
  {
    Retained(before - left, keys, clearAfter) + map k | k in left :: before[k]
  }

  lemma PartlyEnds(before: map<Key, nat>, keys: set<Key>, clearAfter: ClearAfter)
    ensures Partly(before, before.Keys, keys, clearAfter) == before
    ensures Partly(before, {}, keys, clearAfter) == Retained(before, keys, clearAfter)
  {
    assert before - {} == before;
  }

  lemma RetainOne(before: map<Key, nat>, left: set<Key>, k: Key, keys: set<Key>, clearAfter: ClearAfter)
    requires k in left && left <= before.Keys
    ensures var now, next := Partly(before, left, keys, clearAfter), Partly(before, left - {k}, keys, clearAfter);
            && k in now && now[k] == before[k]
            && next == if k in keys then now[k := 0] else if before[k] + 1 < clearAfter then now[k := before[k] + 1] else now - {k}
  {
  }

  /** Every observed key is active afterwards; the ones that were not start at zero. */
  function Activated(active: map<Key, nat>, keys: set<Key>): map<Key, nat> {
    active + map k | k in keys - active.Keys :: 0
  }

  lemma NothingActivated(active: map<Key, nat>)
    ensures Activated(active, Keys([])) == active
  {
  }

  lemma ActivatedOne(active: map<Key, nat>, keys: set<Key>, k: Key)
    requires k !in keys
    ensures k in Activated(active, keys) <==> k in active
    ensures Activated(active, keys + {k}) == if k in active then Activated(active, keys) else Activated(active, keys)[k := 0]
  {
  }

  lemma NextKey(o: Observation, i: nat)
    requires WellFormed(o) && i < |o.findings|
    ensures Keys(o.findings[..i + 1]) == Keys(o.findings[..i]) + {o.findings[i].key}
    ensures o.findings[i].key !in Keys(o.findings[..i])
  {
    assert o.findings[..i + 1] == o.findings[..i] + [o.findings[i]];
  }

  lemma ActivatedIsNewlyActive(active: map<Key, nat>, keys: set<Key>, clearAfter: ClearAfter)
    ensures Activated(Retained(active, keys, clearAfter), keys) == NewlyActive(active, keys, clearAfter)
  {
  }

  /** Retention keeps every observed key that was active, so it does not change what is reported. */
  lemma {:induction false} FreshAfterRetain(findings: seq<ObservedFinding>, active: map<Key, nat>, step: Option<nat>, clearAfter: ClearAfter)
    ensures Fresh(findings, Retained(active, Keys(findings), clearAfter), step) == Fresh(findings, active, step)
  {
    FreshSame(findings, active, Retained(active, Keys(findings), clearAfter), step);
  }

  lemma {:induction false} FreshSame(findings: seq<ObservedFinding>, a: map<Key, nat>, b: map<Key, nat>, step: Option<nat>)
    requires forall f | f in findings :: f.key in a <==> f.key in b
    ensures Fresh(findings, a, step) == Fresh(findings, b, step)
  {
    if findings != [] {
      FreshSame(findings[..|findings| - 1], a, b, step);
    }
  }

  // -------------------------------------------------------------------------
  // Whole histories
  // -------------------------------------------------------------------------

  /** A completed check: an observation, or no usable output. */
  datatype Input = Saw(o: Observation) | Broke

  ghost function Took(s: Memory, i: Input, clearAfter: ClearAfter): Memory {
    if i.Saw? && Verdict(s, i.o).Accepted? then Observed(s, i.o, clearAfter) else s.(failed := true)
  }

  /** The memory after a history without a reset. */
  ghost function After(inputs: seq<Input>, clearAfter: ClearAfter): Memory {
    if inputs == [] then Memory(map[], None, false)
    else Took(After(inputs[..|inputs| - 1], clearAfter), inputs[|inputs| - 1], clearAfter)
  }

  /** The key sets of the observations that counted, in order. */
  ghost function Counted(inputs: seq<Input>, clearAfter: ClearAfter): seq<set<Key>> {
    if inputs == [] then []
    else
      var init, i := inputs[..|inputs| - 1], inputs[|inputs| - 1];
      Counted(init, clearAfter)
      + if i.Saw? && Counts(After(init, clearAfter), i.o) then [Keys(i.o.findings)] else []
  }

  /** How many counted observations in a row have omitted the key since it last appeared. */
  ghost function OmitRun(h: seq<set<Key>>, k: Key): Option<nat> {
    if h == [] then None
    else if k in h[|h| - 1] then Some(0)
    else
      var before := OmitRun(h[..|h| - 1], k);
      if before.None? then None else Some(before.value + 1)
  }

  lemma {:induction false} OmitRunMeaning(h: seq<set<Key>>, k: Key)
    ensures OmitRun(h, k).None? <==> forall t | 0 <= t < |h| :: k !in h[t]
    ensures OmitRun(h, k).Some? ==>
              var n := OmitRun(h, k).value;
              n < |h| && k in h[|h| - 1 - n] && forall t | |h| - n <= t < |h| :: k !in h[t]
  {
    if h != [] {
      OmitRunMeaning(h[..|h| - 1], k);
      assert k in h[|h| - 1] || (forall t | 0 <= t < |h| - 1 :: h[..|h| - 1][t] == h[t]);
    }
  }

  lemma OmitRunStep(h: seq<set<Key>>, keys: set<Key>, k: Key)
    ensures OmitRun(h + [keys], k) ==
            if k in keys then Some(0) else if OmitRun(h, k).None? then None else Some(OmitRun(h, k).value + 1)
  {
    assert (h + [keys])[..|h|] == h;
  }

  /** The key is active while omitted fewer than `clearAfter` times since it last appeared, and its
      count says how often. */
  ghost predicate Tracks(active: map<Key, nat>, h: seq<set<Key>>, clearAfter: ClearAfter, k: Key) {
    var run := OmitRun(h, k);
    && (k in active <==> run.Some? && run.value < clearAfter)
    && (k in active ==> active[k] == run.value)
  }

  lemma TracksStep(active: map<Key, nat>, h: seq<set<Key>>, keys: set<Key>, clearAfter: ClearAfter, k: Key)
    requires Tracks(active, h, clearAfter, k)
    ensures Tracks(NewlyActive(active, keys, clearAfter), h + [keys], clearAfter, k)
  {
    hide NewlyActive, OmitRun;
    OmitRunStep(h, keys, k);
    NewlyActiveAt(active, keys, clearAfter, k);
  }

  lemma {:induction false} ActiveMeaning(inputs: seq<Input>, clearAfter: ClearAfter, k: Key)
    ensures Tracks(After(inputs, clearAfter).active, Counted(inputs, clearAfter), clearAfter, k)
  {
    if inputs != [] {
      hide Counts, Keys, Took, NewlyActive, Tracks;
      var init, i := inputs[..|inputs| - 1], inputs[|inputs| - 1];
      ActiveMeaning(init, clearAfter, k);
      TookActive(After(init, clearAfter), i, clearAfter);
      if i.Saw? && Counts(After(init, clearAfter), i.o) {
        TracksStep(After(init, clearAfter).active, Counted(init, clearAfter), Keys(i.o.findings), clearAfter, k);
      } else {
        assert Counted(inputs, clearAfter) == Counted(init, clearAfter);
      }
    }
  }

  lemma NewlyActiveAt(active: map<Key, nat>, keys: set<Key>, clearAfter: ClearAfter, k: Key)
    ensures var after := NewlyActive(active, keys, clearAfter);
            && (k in after <==> k in keys || (k in active && active[k] + 1 < clearAfter))
            && (k in after ==> after[k] == if k in keys then 0 else active[k] + 1)
  {
  }

  lemma TookActive(s: Memory, i: Input, clearAfter: ClearAfter)
    ensures Took(s, i, clearAfter).active ==
            if i.Saw? && Counts(s, i.o) then NewlyActive(s.active, Keys(i.o.findings), clearAfter) else s.active
  {
    hide WellFormed, Keys, NewlyActive, Overflows, Fresh;
  }

  lemma VerdictCases(s: Memory, i: Input)
    ensures i.Saw? && Counts(s, i.o) ==> Verdict(s, i.o).Accepted?
    ensures i.Saw? && Verdict(s, i.o).Accepted? && !Counts(s, i.o) ==> WellFormed(i.o) && Stale(i.o, s.lastStep)
  {
  }

  ghost predicate Emits(s: Memory, o: Observation, k: Key) {
    Verdict(s, o).Accepted? && exists f | f in Verdict(s, o).findings :: f.key == k
  }

  lemma {:induction false} FreshMeaning(findings: seq<ObservedFinding>, active: map<Key, nat>, step: Option<nat>, k: Key)
    ensures (exists f | f in Fresh(findings, active, step) :: f.key == k) <==> k in Keys(findings) && k !in active
  {
    if findings != [] {
      var init, last := findings[..|findings| - 1], findings[|findings| - 1];
      assert findings == init + [last];
      FreshMeaning(init, active, step, k);
      assert k in Keys(findings) <==> k in Keys(init) || k == last.key;
      var now := Finding(last.key, last.message, if last.step.Some? then last.step else step);
      if last.key !in active {
        assert now in Fresh(findings, active, step);
      }
      assert forall f :: f in Fresh(init, active, step) ==> f in Fresh(findings, active, step);
    }
  }

  /** What an observed finding is reported as: with its own step or, without one, the observation's. */
  function Reported(f: ObservedFinding, step: Option<nat>): Finding {
    Finding(f.key, f.message, if f.step.Some? then f.step else step)
  }

  /** The reports are the findings whose key was not active, each as observed. */
  lemma {:induction false} FreshContents(findings: seq<ObservedFinding>, active: map<Key, nat>, step: Option<nat>, r: Finding)
    ensures r in Fresh(findings, active, step) <==>
              exists f :: f in findings && f.key !in active && r.key == f.key && r.message == f.message
                          && r.step == if f.step.Some? then f.step else step
  {
    if findings != [] {
      var init, last := findings[..|findings| - 1], findings[|findings| - 1];
      FreshContents(init, active, step, r);
      assert forall f :: f in findings <==> f in init || f == last;
    }
  }

  /** They keep the order of the findings. */
  lemma {:induction false} FreshInOrder(findings: seq<ObservedFinding>, active: map<Key, nat>, step: Option<nat>, i: nat, j: nat)
    requires i < j < |findings| && findings[i].key !in active && findings[j].key !in active
    ensures exists x: nat, y: nat :: x < y < |Fresh(findings, active, step)|
                                     && Fresh(findings, active, step)[x] == Reported(findings[i], step)
                                     && Fresh(findings, active, step)[y] == Reported(findings[j], step)
  {
    var init, last := findings[..|findings| - 1], findings[|findings| - 1];
    var before, all := Fresh(init, active, step), Fresh(findings, active, step);
    if j < |init| {
      FreshInOrder(init, active, step, i, j);
      var x: nat, y: nat :| x < y < |before| && before[x] == Reported(init[i], step) && before[y] == Reported(init[j], step);
      assert all[x] == before[x] && all[y] == before[y];
    } else {
      FreshContents(init, active, step, Reported(init[i], step));
      assert init[i] in init;
      var x: nat :| x < |before| && before[x] == Reported(init[i], step);
      assert all[x] == Reported(findings[i], step) && all[|before|] == Reported(findings[j], step);
    }
  }

  /** A key is reported exactly when an observation that counts contains it, and it either never
      appeared before or was omitted by at least `clearAfter` counted observations in a row since. */
  lemma EmissionExact(inputs: seq<Input>, clearAfter: ClearAfter, o: Observation, k: Key)
    ensures var s, run := After(inputs, clearAfter), OmitRun(Counted(inputs, clearAfter), k);
            Emits(s, o, k) <==> Counts(s, o) && k in Keys(o.findings) && (run.None? || run.value >= clearAfter)
  {
    hide After, Counted, OmitRun, Keys, Counts;
    var s := After(inputs, clearAfter);
    ActiveMeaning(inputs, clearAfter, k);
    FreshMeaning(o.findings, s.active, o.step, k);
  }

  lemma {:induction false} CountedPrefix(inputs: seq<Input>, clearAfter: ClearAfter, n: nat)
    requires n <= |inputs|
    ensures Counted(inputs[..n], clearAfter) <= Counted(inputs, clearAfter)
    decreases |inputs|
  {
    if n == |inputs| {
      assert inputs[..n] == inputs;
    } else {
      assert inputs[..|inputs| - 1][..n] == inputs[..n];
      CountedPrefix(inputs[..|inputs| - 1], clearAfter, n);
    }
  }

  ghost predicate EmittedAt(inputs: seq<Input>, clearAfter: ClearAfter, i: nat, k: Key) {
    i < |inputs| && inputs[i].Saw? && Emits(After(inputs[..i], clearAfter), inputs[i].o, k)
  }

  /** Two reports of one key have at least `clearAfter` counted observations between them that omit
      it, in a row. */
  lemma EmissionsApart(inputs: seq<Input>, clearAfter: ClearAfter, i: nat, j: nat, k: Key)
    requires i < j && EmittedAt(inputs, clearAfter, i, k) && EmittedAt(inputs, clearAfter, j, k)
    ensures var h, from, to := Counted(inputs, clearAfter), |Counted(inputs[..i], clearAfter)|, |Counted(inputs[..j], clearAfter)|;
            from < to - clearAfter && to <= |h| && k in h[from] && forall t | to - clearAfter <= t < to :: k !in h[t]
  {
    hide OmitRun, Counts, Emits, Keys;
    var before := Counted(inputs[..j], clearAfter);
    var from := |Counted(inputs[..i], clearAfter)|;
    EmissionExact(inputs[..i], clearAfter, inputs[i].o, k);
    EmissionExact(inputs[..j], clearAfter, inputs[j].o, k);
    CountedPrefix(inputs, clearAfter, j);
    assert inputs[..j][..i + 1] == inputs[..i + 1] && inputs[..i + 1][..i] == inputs[..i];
    CountedPrefix(inputs[..j], clearAfter, i + 1);
    assert Counted(inputs[..i + 1], clearAfter)[from] == Keys(inputs[i].o.findings);
    assert before[from] == Keys(inputs[i].o.findings);
    OmitRunMeaning(before, k);
  }

  /** Never more than 256 active keys. */
  lemma {:induction false} ActiveBounded(inputs: seq<Input>, clearAfter: ClearAfter)
    ensures |After(inputs, clearAfter).active| <= MAX_ACTIVE
  {
    if inputs != [] {
      hide WellFormed, Keys;
      var init, i := inputs[..|inputs| - 1], inputs[|inputs| - 1];
      ActiveBounded(init, clearAfter);
      if i.Saw? {
        NewlyActiveCount(After(init, clearAfter).active, Keys(i.o.findings), clearAfter);
      }
    }
  }

  lemma NewlyActiveCount(active: map<Key, nat>, keys: set<Key>, clearAfter: ClearAfter)
    ensures |NewlyActive(active, keys, clearAfter)| <= |active| + |keys - active.Keys|
  {
    var after := NewlyActive(active, keys, clearAfter);
    var all := active.Keys + (keys - active.Keys);
    assert after.Keys <= all;
    SubsetCount(after.Keys, all);
    assert |after| == |after.Keys| && |active| == |active.Keys|;
  }

  /** The failure mark tells whether the last completed check was unusable or rejected, so each run of
      failures is reported once. */
  lemma FailedMeaning(inputs: seq<Input>, clearAfter: ClearAfter)
    requires inputs != []
    ensures var init, i := inputs[..|inputs| - 1], inputs[|inputs| - 1];
            After(inputs, clearAfter).failed <==> i.Broke? || Verdict(After(init, clearAfter), i.o).Rejected?
  {
    hide WellFormed, Keys;
    VerdictCases(After(inputs[..|inputs| - 1], clearAfter), inputs[|inputs| - 1]);
  }

  /** What it takes to count, in numbers: at most 64 findings with distinct keys, keys of 1 to 128 bytes
      that are not blank and not the reserved one, messages of at most 2048 bytes that are not blank, a
      step beyond the last one if both are given, and no more than 256 keys active afterwards. */
  lemma CountsMeaning(s: Memory, o: Observation)
    ensures Counts(s, o) <==>
            && |o.findings| <= 64 && (forall i, j | 0 <= i < j < |o.findings| :: o.findings[i].key != o.findings[j].key)
            && (forall f | f in o.findings ::
                  && f.key != "__mlq_check_error" && Bytes(f.key) <= 128 && (exists i :: 0 <= i < |f.key| && !IsWhite(f.key[i]))
                  && Bytes(f.message) <= 2048 && (exists i :: 0 <= i < |f.message| && !IsWhite(f.message[i])))
            && (o.step.Some? && s.lastStep.Some? ==> o.step.value > s.lastStep.value)
            && |s.active.Keys + Keys(o.findings)| <= 256
  {
    hide Bytes, IsWhite, Keys;
    var keys := Keys(o.findings);
    assert s.active.Keys + keys == s.active.Keys + (keys - s.active.Keys);
    assert |s.active.Keys + keys| == |s.active| + |keys - s.active.Keys|;
  }
}
