/**
 The cursor-paged event stream of one job: the page query, the shrinking of pages
 that do not fit a frame, the cursor the server keeps, and the client's check of
 every page. The log only grows, and its ids ascend.
 */
module EventStream {
  import opened Domain

  datatype Event = Event(id: nat, job: Option<JobId>, kind: string)

  datatype JobUpdate = JobUpdate(job: JobId, cursor: nat, events: seq<Event>, hasMore: bool)

  const PAGE_SIZE: nat := 256

  // -------------------------------------------------------------------------
  // The log
  // -------------------------------------------------------------------------

  ghost predicate Ascending(events: seq<Event>) {
    forall i, j | 0 <= i < j < |events| :: events[i].id < events[j].id
  }

  ghost predicate LogOk(log: seq<Event>) {
    Ascending(log) && forall e | e in log :: 0 < e.id
  }

  function LatestId(log: seq<Event>): nat {
    if log == [] then 0 else log[|log| - 1].id
  }

  /** The job's events with ids above `lo` and up to `hi`. */
  function Window(log: seq<Event>, job: JobId, lo: nat, hi: nat): seq<Event> {
    if log == [] then []
    else
      var last := log[|log| - 1];
      Window(log[..|log| - 1], job, lo, hi) + if last.job == Some(job) && lo < last.id <= hi then [last] else []
  }

  /** The job's events above `after`, all of them. */
  function Pending(log: seq<Event>, job: JobId, after: nat): seq<Event> {
    Window(log, job, after, LatestId(log))
  }

  lemma InitAndLast(log: seq<Event>)
    requires log != [] && Ascending(log)
    ensures Ascending(log[..|log| - 1])
    ensures forall e :: e in log <==> e in log[..|log| - 1] || e == log[|log| - 1]
    ensures forall e | e in log[..|log| - 1] :: e.id < log[|log| - 1].id
  {
    assert log == log[..|log| - 1] + [log[|log| - 1]];
  }

  lemma {:induction false} WindowFacts(log: seq<Event>, job: JobId, lo: nat, hi: nat)
    requires Ascending(log)
    ensures Ascending(Window(log, job, lo, hi))
    ensures forall e :: e in Window(log, job, lo, hi) <==> e in log && e.job == Some(job) && lo < e.id <= hi
  {
    if log != [] {
      hide Ascending;
      var init, last := log[..|log| - 1], log[|log| - 1];
      InitAndLast(log);
      WindowFacts(init, job, lo, hi);
      var w := Window(init, job, lo, hi);
      if last.job == Some(job) && lo < last.id <= hi {
        OneLater(w, last);
      }
    }
  }

  lemma OneLater(events: seq<Event>, last: Event)
    requires Ascending(events) && forall e | e in events :: e.id < last.id
    ensures Ascending(events + [last])
  {
    assert forall i | 0 <= i < |events| :: events[i] in events;
  }

  /** Ascending sequences with the same elements are the same. */
  lemma {:induction false} AscendingUnique(a: seq<Event>, b: seq<Event>)
    requires Ascending(a) && Ascending(b) && forall e :: e in a <==> e in b
    ensures a == b
  {
    assert b != [] ==> b[0] in a;
    if a != [] {
      assert a[0] in b && a[0] in a && b[0] in b;
      assert forall e :: e in a[1..] <==> e in a && e != a[0];
      assert forall e :: e in b[1..] <==> e in b && e != b[0];
      AscendingUnique(a[1..], b[1..]);
    }
  }

  lemma LatestBounds(log: seq<Event>)
    requires Ascending(log)
    ensures forall e | e in log :: e.id <= LatestId(log)
  {
  }

  lemma Joined(a: seq<Event>, b: seq<Event>, mid: nat)
    requires Ascending(a) && Ascending(b) && (forall e | e in a :: e.id <= mid) && (forall e | e in b :: mid < e.id)
    ensures Ascending(a + b)
  {
    forall i, j | 0 <= i < j < |a + b| ensures (a + b)[i].id < (a + b)[j].id {
      if i < |a| <= j {
        assert a[i] in a && b[j - |a|] in b;
      }
    }
  }

  lemma WindowsJoin(log: seq<Event>, job: JobId, lo: nat, mid: nat, hi: nat)
    requires Ascending(log) && lo <= mid <= hi
    ensures Window(log, job, lo, mid) + Window(log, job, mid, hi) == Window(log, job, lo, hi)
  {
    hide Window;
    WindowFacts(log, job, lo, mid);
    WindowFacts(log, job, mid, hi);
    WindowFacts(log, job, lo, hi);
    Joined(Window(log, job, lo, mid), Window(log, job, mid, hi), mid);
    AscendingUnique(Window(log, job, lo, mid) + Window(log, job, mid, hi), Window(log, job, lo, hi));
  }

  /** Appending to the log does not reach below its latest id. */
  lemma WindowFixed(log: seq<Event>, grown: seq<Event>, job: JobId, lo: nat, hi: nat)
    requires Ascending(grown) && log <= grown && (hi <= LatestId(log) || hi <= lo)
    ensures Window(log, job, lo, hi) == Window(grown, job, lo, hi)
  {
    hide Window;
    assert Ascending(log);
    WindowFacts(log, job, lo, hi);
    WindowFacts(grown, job, lo, hi);
    forall e | e in Window(grown, job, lo, hi) ensures e in log {
      var k :| 0 <= k < |grown| && grown[k] == e;
      assert log != [] ==> grown[|log| - 1].id == LatestId(log);
    }
    AscendingUnique(Window(log, job, lo, hi), Window(grown, job, lo, hi));
  }

  /** A nonempty prefix of the pending events is the window up to its last id. */
  lemma PrefixWindow(log: seq<Event>, job: JobId, after: nat, n: nat)
    requires Ascending(log) && 0 < n <= |Pending(log, job, after)|
    ensures var p := Pending(log, job, after);
            after < p[n - 1].id <= LatestId(log) && p[..n] == Window(log, job, after, p[n - 1].id)
  {
    hide Window;
    var p := Pending(log, job, after);
    var hi := p[n - 1].id;
    WindowFacts(log, job, after, LatestId(log));
    WindowFacts(log, job, after, hi);
    assert p[n - 1] in p;
    forall e | e in Window(log, job, after, hi) ensures e in p[..n] {
      assert e in p by {
        LatestBounds(log);
      }
      var k :| 0 <= k < |p| && p[k] == e;
      assert k < n;
      assert p[..n][k] == e;
    }
    forall e | e in p[..n] ensures e in Window(log, job, after, hi) {
      var k :| 0 <= k < n && p[k] == e;
      assert p[k] in p;
    }
    AscendingUnique(p[..n], Window(log, job, after, hi));
  }

  // -------------------------------------------------------------------------
  // The server
  // -------------------------------------------------------------------------

  /** One page, read in the same transaction as the snapshot. */
  function QueryPage(log: seq<Event>, job: JobId, after: Option<nat>): JobUpdate {
    match after
    case None => JobUpdate(job, LatestId(log), [], false)
    case Some(cursor) =>
      var pending := Pending(log, job, cursor);
      var rows := if |pending| > PAGE_SIZE then pending[..PAGE_SIZE] else pending;
      JobUpdate(job, if rows == [] then cursor else rows[|rows| - 1].id, rows, |pending| > PAGE_SIZE)
  }

  function Truncated(u: JobUpdate, n: nat): JobUpdate
    requires 0 < n <= |u.events|
  {
    u.(events := u.events[..n], cursor := u.events[n - 1].id, hasMore := true)
  }

  /** Halve the page until it fits or one event is left. */
  function Shrunk(u: JobUpdate, fits: JobUpdate -> bool): JobUpdate
    decreases |u.events|
  {
    if fits(u) || |u.events| <= 1 then u else Shrunk(Truncated(u, |u.events| / 2), fits)
  }

  /** Shrinking only cuts the page short, never to nothing, and says so. */
  lemma {:induction false} ShrunkIsPrefix(u: JobUpdate, fits: JobUpdate -> bool)
    ensures var s := Shrunk(u, fits);
            && (s == u || exists n: nat :: 0 < n < |u.events| && s == Truncated(u, n))
            && (fits(s) || |s.events| <= 1)
            && (fits(u) ==> s == u)
    decreases |u.events|
  {
    if !fits(u) && |u.events| > 1 {
      var half := |u.events| / 2;
      var t := Truncated(u, half);
      ShrunkIsPrefix(t, fits);
      var s := Shrunk(t, fits);
      if s != t {
        var n: nat :| 0 < n < |t.events| && s == Truncated(t, n);
        assert u.events[..half][..n] == u.events[..n];
        assert s == Truncated(u, n);
      }
    }
  }

  /** The frames of one subscription, in the order they are written. */
  datatype Round = Round(page: JobUpdate, sent: bool)

  class JobStream {
    const job: JobId
    var after: Option<nat>
    var first: bool

    constructor (job: JobId, after: Option<nat>)
      ensures this.job == job && this.after == after && first
    {
      this.job := job;
      this.after := after;
      first := true;
    }

    method Shrink(u: JobUpdate, fits: JobUpdate -> bool) returns (page: JobUpdate)
      ensures page == Shrunk(u, fits)
    {
      page := u;
      while !fits(page) && |page.events| > 1
        invariant Shrunk(page, fits) == Shrunk(u, fits)
        decreases |page.events|
      {
        var events := page.events[..|page.events| / 2];
        page := page.(events := events, cursor := events[|events| - 1].id, hasMore := true);
      }
    }

    /** One turn of the loop. A page that still does not fit cannot be written and ends the
        stream with an error before anything else happens. */
    method Turn(log: seq<Event>, fits: JobUpdate -> bool) returns (round: Round, failed: bool)
      modifies this
      ensures round == RoundOf(log, job, old(after), old(first), fits)
      ensures failed == (round.sent && !fits(round.page))
      ensures after == Some(round.page.cursor)
      ensures first == (failed && old(first))
    {
      var page := QueryPage(log, job, after);
      page := Shrink(page, fits);
      after := Some(page.cursor);
      var send := first || page.events != [];
      round := Round(page, send);
      if send && !fits(page) {
        return round, true;
      }
      first := false;
      return round, false;
    }
  }

  function RoundOf(log: seq<Event>, job: JobId, after: Option<nat>, first: bool, fits: JobUpdate -> bool): Round {
    var page := Shrunk(QueryPage(log, job, after), fits);
    Round(page, first || page.events != [])
  }

  // -------------------------------------------------------------------------
  // The client
  // -------------------------------------------------------------------------

  /** What a client demands of a page, given the cursor it has reached. */
  ghost predicate Acceptable(u: JobUpdate, job: JobId, cursor: nat) {
    && u.job == job && cursor <= u.cursor && (u.hasMore ==> u.events != [])
    && Ascending(u.events)
    && forall e | e in u.events :: e.job == Some(job) && cursor < e.id <= u.cursor
  }

  class JobSubscription {
    const job: JobId
    var cursor: Option<nat>

    constructor (job: JobId, after: Option<nat>)
      ensures this.job == job && cursor == after
    {
      this.job := job;
      cursor := after;
    }

    /** Accepts exactly the acceptable pages; a refused page leaves the cursor alone. */
    method Next(u: JobUpdate) returns (ok: bool)
      modifies this`cursor
      ensures ok <==> Acceptable(u, job, if old(cursor).Some? then old(cursor).value else 0)
      ensures cursor == if ok then Some(u.cursor) else old(cursor)
    {
      var from := if cursor.Some? then cursor.value else 0;
      var at := from;
      if u.job != job || u.cursor < at || (u.hasMore && u.events == []) {
        return false;
      }
      var i := 0;
      while i < |u.events|
        invariant i <= |u.events| && from <= at && (at == if i == 0 then from else u.events[i - 1].id)
        invariant forall k | 0 <= k < i :: u.events[k].job == Some(job) && from < u.events[k].id <= u.cursor && u.events[k].id <= at
        invariant Ascending(u.events[..i])
      {
        var e := u.events[i];
        if e.job != Some(job) || e.id <= at || e.id > u.cursor {
          assert u.events[i] in u.events;
          return false;
        }
        at := e.id;
        i := i + 1;
      }
      assert u.events[..|u.events|] == u.events;
      cursor := Some(u.cursor);
      return true;
    }
  }

  // -------------------------------------------------------------------------
  // Whole subscriptions
  // -------------------------------------------------------------------------

  /** What one turn meets: the log as it is then, and which updates fit a frame with the snapshot of then. */
  datatype Look = Look(log: seq<Event>, fits: JobUpdate -> bool)

  ghost predicate Growing(looks: seq<Look>) {
    && (forall l | l in looks :: LogOk(l.log))
    && (forall i, j | 0 <= i <= j < |looks| :: looks[i].log <= looks[j].log)
  }

  /** The cursor after the turns so far. */
  function Cursor(looks: seq<Look>, job: JobId, start: Option<nat>): Option<nat> {
    if looks == [] then start
    else
      var init, l := looks[..|looks| - 1], looks[|looks| - 1];
      Some(RoundOf(l.log, job, Cursor(init, job, start), init == [], l.fits).page.cursor)
  }

  function LastRound(looks: seq<Look>, job: JobId, start: Option<nat>): Round
    requires looks != []
  {
    var init, l := looks[..|looks| - 1], looks[|looks| - 1];
    RoundOf(l.log, job, Cursor(init, job, start), init == [], l.fits)
  }

  /** All events written so far; a page that is not sent has none. */
  function Delivered(looks: seq<Look>, job: JobId, start: Option<nat>): seq<Event> {
    if looks == [] then [] else Delivered(looks[..|looks| - 1], job, start) + LastRound(looks, job, start).page.events
  }

  /** Where the subscription starts: its own cursor, or the end of the log it first meets. */
  function Origin(looks: seq<Look>, start: Option<nat>): nat
    requires looks != []
  {
    if start.Some? then start.value else LatestId(looks[0].log)
  }

  function ClientCursor(cursor: Option<nat>): nat {
    if cursor.Some? then cursor.value else 0
  }

  /** One turn from a known cursor: the page is the next window of the log, acceptable to the client;
      it is complete unless it says otherwise, and then it is not empty. */
  lemma TurnFacts(log: seq<Event>, job: JobId, after: nat, first: bool, fits: JobUpdate -> bool)
    requires LogOk(log)
    ensures var r := RoundOf(log, job, Some(after), first, fits);
            && after <= r.page.cursor && (r.page.cursor == after || r.page.cursor <= LatestId(log))
            && r.page.events == Window(log, job, after, r.page.cursor)
            && (!r.page.hasMore ==> r.page.events == Pending(log, job, after))
            && (r.page.hasMore ==> r.page.events != [] && after < r.page.cursor)
            && (!r.sent ==> r.page.cursor == after)
            && |r.page.events| <= 256
            && (fits(QueryPage(log, job, Some(after))) ==>
                  |r.page.events| == if |Pending(log, job, after)| > 256 then 256 else |Pending(log, job, after)|)
            && Acceptable(r.page, job, after)
  {
    hide Window, Shrunk;
    var q := QueryPage(log, job, Some(after));
    ShrunkIsPrefix(q, fits);
    var page := Shrunk(q, fits);
    var p := Pending(log, job, after);
    assert exists n: nat :: n <= |p| && page.events == p[..n] && page.hasMore == (n < |p|) && (n == 0 ==> |p| == 0)
                            && page.cursor == if n == 0 then after else p[n - 1].id by {
      PageIsPrefix(log, job, after, page);
    }
    var n: nat :| n <= |p| && page.events == p[..n] && page.hasMore == (n < |p|) && (n == 0 ==> |p| == 0)
                  && page.cursor == if n == 0 then after else p[n - 1].id;
    WindowFacts(log, job, after, page.cursor);
    if n == 0 {
      NothingBetween(log, job, after);
    } else {
      PrefixWindow(log, job, after, n);
    }
  }

  lemma NothingBetween(log: seq<Event>, job: JobId, after: nat)
    requires Ascending(log)
    ensures Window(log, job, after, after) == []
  {
    WindowFacts(log, job, after, after);
    AscendingUnique(Window(log, job, after, after), []);
  }

  lemma PageIsPrefix(log: seq<Event>, job: JobId, after: nat, page: JobUpdate)
    requires var q := QueryPage(log, job, Some(after));
             page == q || exists k: nat :: 0 < k < |q.events| && page == Truncated(q, k)
    ensures var p := Pending(log, job, after);
            exists n: nat :: n <= |p| && page.events == p[..n] && page.hasMore == (n < |p|) && (n == 0 ==> |p| == 0)
                             && page.cursor == if n == 0 then after else p[n - 1].id
  {
    hide Pending;
    var q := QueryPage(log, job, Some(after));
    var p := Pending(log, job, after);
    var n := |page.events|;
    assert p[..|p|] == p;
    if page != q {
      var k: nat :| 0 < k < |q.events| && page == Truncated(q, k);
      assert q.events[..k] == p[..k];
    }
    assert n <= |p| && page.events == p[..n] && page.hasMore == (n < |p|) && (n == 0 ==> |p| == 0)
           && page.cursor == if n == 0 then after else p[n - 1].id;
  }

  lemma GrowingInit(looks: seq<Look>)
    requires Growing(looks) && looks != []
    ensures Growing(looks[..|looks| - 1]) && LogOk(looks[|looks| - 1].log)
    ensures |looks| > 1 ==> looks[|looks| - 2].log <= looks[|looks| - 1].log
  {
    assert looks[|looks| - 1] in looks;
    assert forall l | l in looks[..|looks| - 1] :: l in looks;
  }

  /** For every growing log and all frame limits: what has been delivered is exactly the job's events
      above the start and up to the cursor, once each and in order; it is all there are as of the
      snapshot whenever the last page has no more; a page with more is never empty. */
  lemma {:induction false} StreamDelivers(looks: seq<Look>, job: JobId, start: Option<nat>)
    requires Growing(looks) && looks != []
    ensures var log, c, o := looks[|looks| - 1].log, Cursor(looks, job, start).value, Origin(looks, start);
            && o <= c && (c == o || c <= LatestId(log))
            && Delivered(looks, job, start) == Window(log, job, o, c)
            && (!LastRound(looks, job, start).page.hasMore ==> Delivered(looks, job, start) == Pending(log, job, o))
            && (LastRound(looks, job, start).page.hasMore ==> LastRound(looks, job, start).page.events != [])
  {
    hide Window, RoundOf, LogOk;
    var init, l := looks[..|looks| - 1], looks[|looks| - 1];
    GrowingInit(looks);
    if init == [] {
      assert Cursor(init, job, start) == start && Delivered(init, job, start) == [];
      FirstTurn(l.log, job, start, l.fits);
    } else {
      StreamDelivers(init, job, start);
      LaterTurn(init, l, job, start);
    }
  }

  lemma FirstTurn(log: seq<Event>, job: JobId, start: Option<nat>, fits: JobUpdate -> bool)
    requires LogOk(log)
    ensures var page, o := RoundOf(log, job, start, true, fits).page, if start.Some? then start.value else LatestId(log);
            && o <= page.cursor && (page.cursor == o || page.cursor <= LatestId(log))
            && page.events == Window(log, job, o, page.cursor)
            && (!page.hasMore ==> page.events == Pending(log, job, o))
            && (page.hasMore ==> page.events != [])
            && Acceptable(page, job, ClientCursor(start))
  {
    hide Window;
    if start.Some? {
      TurnFacts(log, job, start.value, true, fits);
    } else {
      NothingBetween(log, job, LatestId(log));
    }
  }

  lemma LaterTurn(init: seq<Look>, l: Look, job: JobId, start: Option<nat>)
    requires init != [] && LogOk(l.log) && init[|init| - 1].log <= l.log
    requires var log, c, o := init[|init| - 1].log, Cursor(init, job, start).value, Origin(init, start);
             o <= c && (c == o || c <= LatestId(log)) && Delivered(init, job, start) == Window(log, job, o, c)
    ensures var c, o := Cursor(init, job, start).value, Origin(init, start);
            var page := RoundOf(l.log, job, Some(c), false, l.fits).page;
            && o <= page.cursor && (page.cursor == o || page.cursor <= LatestId(l.log))
            && Delivered(init, job, start) + page.events == Window(l.log, job, o, page.cursor)
            && (!page.hasMore ==> Delivered(init, job, start) + page.events == Pending(l.log, job, o))
            && (page.hasMore ==> page.events != [])
  {
    hide Window, RoundOf, Delivered;
    var log, c, o := init[|init| - 1].log, Cursor(init, job, start).value, Origin(init, start);
    var page := RoundOf(l.log, job, Some(c), false, l.fits).page;
    TurnFacts(l.log, job, c, false, l.fits);
    LatestGrows(log, l.log);
    WindowFixed(log, l.log, job, o, c);
    WindowsJoin(l.log, job, o, c, page.cursor);
    if !page.hasMore {
      CompletePrefix(l.log, job, o, c);
    }
  }

  lemma LatestGrows(log: seq<Event>, grown: seq<Event>)
    requires Ascending(grown) && log <= grown
    ensures LatestId(log) <= LatestId(grown)
  {
    if log != [] {
      assert grown[|log| - 1] == log[|log| - 1];
    }
  }

  /** What lies up to the cursor and what is pending behind it make up all that is pending. */
  lemma CompletePrefix(log: seq<Event>, job: JobId, lo: nat, mid: nat)
    requires Ascending(log) && lo <= mid && (mid == lo || mid <= LatestId(log))
    ensures Window(log, job, lo, mid) + Pending(log, job, mid) == Pending(log, job, lo)
  {
    hide Window;
    if mid == lo {
      NothingBetween(log, job, lo);
    } else {
      WindowsJoin(log, job, lo, mid, LatestId(log));
    }
  }

  /** Server and client together: the client accepts every page the server sends, and keeps its
      cursor. A page that cannot be written ends the subscription. */
  method Follow(stream: JobStream, client: JobSubscription, looks: seq<Look>) returns (delivered: seq<Event>, ended: bool)
    requires stream.first && stream.after == client.cursor && stream.job == client.job && Growing(looks)
    modifies stream, client
    ensures !ended ==> delivered == Delivered(looks, stream.job, old(client.cursor))
    ensures !ended ==> stream.after == Cursor(looks, stream.job, old(client.cursor)) && client.cursor == stream.after
    ensures ended ==> exists n: nat :: n < |looks| && delivered == Delivered(looks[..n], stream.job, old(client.cursor))
                                       && !looks[n].fits(LastRound(looks[..n + 1], stream.job, old(client.cursor)).page)
  {
    hide RoundOf, Acceptable, LogOk;
    ghost var start := client.cursor;
    delivered := [];
    var i := 0;
    while i < |looks|
      invariant i <= |looks| && stream.first == (i == 0)
      invariant stream.after == client.cursor == Cursor(looks[..i], stream.job, start)
      invariant delivered == Delivered(looks[..i], stream.job, start)
    {
      assert looks[..i + 1][..i] == looks[..i] && looks[i] in looks;
      NextTurn(looks[i].log, stream.job, stream.after, stream.first, looks[i].fits, i > 0);
      var round, failed := stream.Turn(looks[i].log, looks[i].fits);
      assert round == LastRound(looks[..i + 1], stream.job, start);
      if failed {
        return delivered, true;
      }
      if round.sent {
        var ok := client.Next(round.page);
        assert ok;
      }
      delivered := delivered + round.page.events;
      i := i + 1;
    }
    assert looks[..|looks|] == looks;
    return delivered, false;
  }

  lemma NextTurn(log: seq<Event>, job: JobId, after: Option<nat>, first: bool, fits: JobUpdate -> bool, later: bool)
    requires LogOk(log) && first == !later && (later ==> after.Some?)
    ensures var r := RoundOf(log, job, after, first, fits);
            && Acceptable(r.page, job, ClientCursor(after))
            && (!r.sent ==> after == Some(r.page.cursor) && r.page.events == [])
  {
    hide Window, Acceptable;
    if after.Some? {
      TurnFacts(log, job, after.value, first, fits);
    } else {
      FirstTurn(log, job, after, fits);
    }
  }

  /** Backlog drains without waiting: turn after turn delivers something until nothing is pending. */
  method Drain(stream: JobStream, log: seq<Event>, fits: JobUpdate -> bool) returns (delivered: seq<Event>, ended: bool)
    requires stream.after.Some? && LogOk(log)
    modifies stream
    ensures stream.after.Some?
    ensures !ended ==> delivered == Pending(log, stream.job, old(stream.after.value)) && Pending(log, stream.job, stream.after.value) == []
  {
    hide Window, RoundOf;
    ghost var from := stream.after.value;
    delivered := [];
    NothingBetween(log, stream.job, from);
    while true
      invariant stream.after.Some? && from <= stream.after.value && (stream.after.value == from || stream.after.value <= LatestId(log))
      invariant delivered == Window(log, stream.job, from, stream.after.value)
      decreases |Pending(log, stream.job, stream.after.value)|
    {
      ghost var at := stream.after.value;
      TurnFacts(log, stream.job, at, stream.first, fits);
      var round, failed := stream.Turn(log, fits);
      if failed {
        return delivered, true;
      }
      ghost var c := round.page.cursor;
      WindowsJoin(log, stream.job, from, at, c);
      CompletePrefix(log, stream.job, at, c);
      delivered := delivered + round.page.events;
      if !round.page.hasMore {
        CompletePrefix(log, stream.job, from, at);
        return delivered, false;
      }
    }
  }
}
