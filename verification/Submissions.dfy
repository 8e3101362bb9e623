/**
 Dependency declarations of a submission: the edge map the database stores, and
 the canonical list the request hash is taken over. The two agree on which
 submissions are the same.
 */
module Submissions {
  import opened Domain

  datatype DependencySpec = DependencySpec(job: int, condition: Condition)

  /** The condition of a repeated parent: success is the stricter one and wins. */
  function Merge(edges: map<int, Condition>, d: DependencySpec): map<int, Condition> {
    if d.job in edges && !d.condition.OnSuccess? then edges else edges[d.job := d.condition]
  }

  /** The edge map left after reading the declarations in order. */
  function Collapse(deps: seq<DependencySpec>): map<int, Condition> {
    if deps == [] then map[] else Merge(Collapse(deps[..|deps| - 1]), deps[|deps| - 1])
  }

  /** Order free reading of the collapsed map. */
  lemma {:induction false} CollapseMeaning(deps: seq<DependencySpec>)
    ensures forall j :: j in Collapse(deps) <==> exists d :: d in deps && d.job == j
    ensures forall j | j in Collapse(deps) :: Collapse(deps)[j].OnSuccess? <==> DependencySpec(j, OnSuccess) in deps
  {
    if deps != [] {
      var init, last := deps[..|deps| - 1], deps[|deps| - 1];
      CollapseMeaning(init);
      assert deps == init + [last];
      assert forall d :: d in deps <==> d in init || d == last;
      forall j ensures j in Collapse(deps) <==> exists d :: d in deps && d.job == j {
        if j in Collapse(init) {
          var d :| d in init && d.job == j;
          assert d in deps;
        }
        if j == last.job {
          assert last in deps;
        }
      }
    }
  }

  // -------------------------------------------------------------------------
  // The canonical list
  // -------------------------------------------------------------------------

  /** Put a declaration in its place by parent id; success wins over terminal. */
  function Place(list: seq<DependencySpec>, d: DependencySpec): seq<DependencySpec> {
    if list == [] || d.job < list[0].job then [d] + list
    else if d.job == list[0].job then (if d.condition.OnSuccess? then [d] + list[1..] else list)
    else [list[0]] + Place(list[1..], d)
  }

  /** One declaration per parent, by ascending parent id. */
  function Canonical(deps: seq<DependencySpec>): seq<DependencySpec> {
    if deps == [] then [] else Place(Canonical(deps[..|deps| - 1]), deps[|deps| - 1])
  }

  ghost predicate Ascending(list: seq<DependencySpec>) {
    forall i, k | 0 <= i < k < |list| :: list[i].job < list[k].job
  }

  /** The list spells out the map, in ascending order. */
  ghost predicate Enumerates(list: seq<DependencySpec>, edges: map<int, Condition>) {
    && Ascending(list)
    && forall d :: d in list <==> d.job in edges && edges[d.job] == d.condition
  }

  predicate HasParent(list: seq<DependencySpec>, job: int) {
    exists d :: d in list && d.job == job
  }

  lemma EdgesSpelled(list: seq<DependencySpec>, edges: map<int, Condition>)
    requires Enumerates(list, edges)
    ensures forall j :: j in edges <==> HasParent(list, j)
  {
    forall j | j in edges ensures HasParent(list, j) {
      assert DependencySpec(j, edges[j]) in list;
    }
  }

  lemma HeadAndTail(list: seq<DependencySpec>)
    requires list != [] && Ascending(list)
    ensures Ascending(list[1..])
    ensures forall e :: e in list <==> e == list[0] || e in list[1..]
    ensures forall e | e in list[1..] :: list[0].job < e.job
  {
    assert list == [list[0]] + list[1..];
  }

  lemma {:induction false} PlaceElements(list: seq<DependencySpec>, d: DependencySpec)
    requires Ascending(list)
    ensures forall e :: e in Place(list, d) <==>
              if e.job != d.job || (HasParent(list, d.job) && !d.condition.OnSuccess?) then e in list else e == d
  {
    if list != [] {
      hide Ascending;
      HeadAndTail(list);
      if d.job > list[0].job {
        PlaceElements(list[1..], d);
        assert HasParent(list, d.job) <==> HasParent(list[1..], d.job);
      }
    }
  }

  lemma {:induction false} PlaceAscending(list: seq<DependencySpec>, d: DependencySpec)
    requires Ascending(list)
    ensures Ascending(Place(list, d))
  {
    if list != [] && d.job > list[0].job {
      HeadAndTail(list);
      PlaceAscending(list[1..], d);
      PlaceElements(list[1..], d);
      var placed := Place(list[1..], d);
      assert forall i | 0 <= i < |placed| :: placed[i] in placed;
    }
  }

  lemma PlaceEnumerates(list: seq<DependencySpec>, edges: map<int, Condition>, d: DependencySpec)
    requires Enumerates(list, edges)
    ensures Enumerates(Place(list, d), Merge(edges, d))
  {
    PlaceElements(list, d);
    PlaceAscending(list, d);
    EdgesSpelled(list, edges);
  }

  lemma {:induction false} CanonicalEnumerates(deps: seq<DependencySpec>)
    ensures Enumerates(Canonical(deps), Collapse(deps))
  {
    if deps != [] {
      var init := deps[..|deps| - 1];
      CanonicalEnumerates(init);
      PlaceEnumerates(Canonical(init), Collapse(init), deps[|deps| - 1]);
    }
  }

  /** A map has one ascending spelling. */
  lemma {:induction false} EnumerationUnique(a: seq<DependencySpec>, b: seq<DependencySpec>)
    requires Ascending(a) && Ascending(b) && forall d :: d in a <==> d in b
    ensures a == b
  {
    assert b != [] ==> b[0] in a;
    if a != [] {
      assert a[0] in b && b != [] && b[0] in a;
      assert forall d :: d in a[1..] <==> d in a && d != a[0];
      assert forall d :: d in b[1..] <==> d in b && d != b[0];
      EnumerationUnique(a[1..], b[1..]);
    }
  }

  /** Two submissions hash alike exactly when they store the same edges. */
  lemma SameCanonicalIffSameEdges(a: seq<DependencySpec>, b: seq<DependencySpec>)
    ensures Canonical(a) == Canonical(b) <==> Collapse(a) == Collapse(b)
  {
    CanonicalEnumerates(a);
    CanonicalEnumerates(b);
    if Collapse(a) == Collapse(b) {
      EnumerationUnique(Canonical(a), Canonical(b));
    }
    if Canonical(a) == Canonical(b) {
      SameEnumeration(Canonical(a), Collapse(a), Collapse(b));
    }
  }

  lemma SameEnumeration(list: seq<DependencySpec>, x: map<int, Condition>, y: map<int, Condition>)
    requires Enumerates(list, x) && Enumerates(list, y)
    ensures x == y
  {
    forall j | j in x ensures j in y && y[j] == x[j] {
      assert DependencySpec(j, x[j]) in list;
    }
    forall j | j in y ensures j in x {
      assert DependencySpec(j, y[j]) in list;
    }
  }

  /** Canonicalizing again changes nothing, and stores the same edges. */
  lemma CanonicalIsFixed(deps: seq<DependencySpec>)
    ensures Collapse(Canonical(deps)) == Collapse(deps) && Canonical(Canonical(deps)) == Canonical(deps)
  {
    var list := Canonical(deps);
    CanonicalEnumerates(deps);
    CollapseMeaning(list);
    forall j | j in Collapse(deps) ensures j in Collapse(list) && Collapse(list)[j] == Collapse(deps)[j] {
      assert DependencySpec(j, Collapse(deps)[j]) in list;
    }
    forall j | j in Collapse(list) ensures j in Collapse(deps) {
      var d :| d in list && d.job == j;
    }
    assert Collapse(list) == Collapse(deps);
    SameCanonicalIffSameEdges(list, deps);
  }

  // -------------------------------------------------------------------------
  // Sort, dedup, retain
  // -------------------------------------------------------------------------

  /** Lexicographic: parent id, then success before terminal. */
  predicate KeyAtMost(a: DependencySpec, b: DependencySpec) {
    a.job < b.job || (a.job == b.job && (a.condition.OnSuccess? || b.condition.OnTerminal?))
  }

  ghost predicate SortedByKey(list: seq<DependencySpec>) {
    forall i, k | 0 <= i < k < |list| :: KeyAtMost(list[i], list[k])
  }

  ghost predicate SameElements(a: seq<DependencySpec>, b: seq<DependencySpec>) {
    forall d :: d in a <==> d in b
  }

  lemma NothingToSort()
    ensures SortedByKey([])
  {
  }

  lemma InsertedSorted(list: seq<DependencySpec>, at: nat, d: DependencySpec)
    requires SortedByKey(list) && at <= |list|
    requires (forall i | 0 <= i < at :: KeyAtMost(list[i], d)) && (at < |list| ==> !KeyAtMost(list[at], d))
    ensures SortedByKey(list[..at] + [d] + list[at..])
    ensures multiset(list[..at] + [d] + list[at..]) == multiset(list) + multiset{d}
  {
    assert list == list[..at] + list[at..];
    var all := list[..at] + [d] + list[at..];
    forall i, k | 0 <= i < k < |all| ensures KeyAtMost(all[i], all[k]) {
      if k > at {
        assert all[k] == list[k - 1] && KeyAtMost(d, list[at]) && (k - 1 > at ==> KeyAtMost(list[at], list[k - 1]));
      }
    }
  }

  method SortDependencies(deps: seq<DependencySpec>) returns (list: seq<DependencySpec>)
    ensures SortedByKey(list) && multiset(list) == multiset(deps)
  {
    hide SortedByKey;
    assert SortedByKey([]) by {
      NothingToSort();
    }
    list := [];
    var n := 0;
    while n < |deps|
      invariant n <= |deps| && SortedByKey(list) && multiset(list) == multiset(deps[..n])
    {
      var d := deps[n];
      var at := 0;
      while at < |list| && KeyAtMost(list[at], d)
        invariant at <= |list| && forall i | 0 <= i < at :: KeyAtMost(list[i], d)
      {
        at := at + 1;
      }
      InsertedSorted(list, at, d);
      assert deps[..n + 1] == deps[..n] + [d];
      list := list[..at] + [d] + list[at..];
      n := n + 1;
    }
    assert deps[..|deps|] == deps;
  }

  /** Drop adjacent repetitions, which in a sorted list are all of them. */
  method DedupDependencies(deps: seq<DependencySpec>) returns (list: seq<DependencySpec>)
    requires SortedByKey(deps)
    ensures SortedByKey(list) && SameElements(list, deps)
    ensures forall i, k | 0 <= i < k < |list| :: list[i] != list[k]
  {
    list := [];
    var n := 0;
    while n < |deps|
      invariant n <= |deps| && SameElements(list, deps[..n])
      invariant list != [] ==> n > 0 && list[|list| - 1] == deps[n - 1]
      invariant list == [] ==> n == 0
      invariant forall i, k | 0 <= i < k < |list| :: KeyAtMost(list[i], list[k]) && list[i] != list[k]
    {
      assert deps[..n + 1] == deps[..n] + [deps[n]];
      if list == [] || list[|list| - 1] != deps[n] {
        forall i | 0 <= i < |list| ensures KeyAtMost(list[i], deps[n]) && list[i] != deps[n] {
          assert list[i] in deps[..n];
          if i < |list| - 1 {
            assert KeyAtMost(list[i], list[|list| - 1]);
          }
          assert KeyAtMost(deps[n - 1], deps[n]);
        }
        list := list + [deps[n]];
      }
      n := n + 1;
    }
    assert deps[..|deps|] == deps;
  }

  /** Keep success declarations, and terminal ones whose parent has no other. */
  method RetainStrictest(deps: seq<DependencySpec>) returns (list: seq<DependencySpec>)
    requires forall i, k | 0 <= i < k < |deps| :: KeyAtMost(deps[i], deps[k]) && deps[i] != deps[k]
    ensures Ascending(list)
    ensures forall d :: d in list <==> d in deps && (d.condition.OnSuccess? || DependencySpec(d.job, OnSuccess) !in deps)
  {
    var succeeded := set d | d in deps && d.condition.OnSuccess? :: d.job;
    assert forall j :: j in succeeded <==> DependencySpec(j, OnSuccess) in deps;
    list := [];
    var n := 0;
    while n < |deps|
      invariant n <= |deps|
      invariant forall d :: d in list <==> d in deps[..n] && (d.condition.OnSuccess? || d.job !in succeeded)
      invariant Ascending(list)
    {
      var d := deps[n];
      assert deps[..n + 1] == deps[..n] + [d];
      if d.condition.OnSuccess? || d.job !in succeeded {
        forall i | 0 <= i < |list| ensures list[i].job < d.job {
          assert list[i] in list && list[i] in deps[..n];
          var k :| 0 <= k < n && deps[k] == list[i];
          assert KeyAtMost(deps[k], d) && deps[k] != d;
        }
        list := list + [d];
      }
      n := n + 1;
    }
    assert deps[..|deps|] == deps;
  }

  /** The dependency part of the request hash: sort, dedup, retain. */
  method CanonicalDependencies(deps: seq<DependencySpec>) returns (list: seq<DependencySpec>)
    ensures list == Canonical(deps)
  {
    var sorted := SortDependencies(deps);
    assert forall d :: d in deps <==> d in multiset(deps);
    assert forall d :: d in sorted <==> d in multiset(sorted);
    var distinct := DedupDependencies(sorted);
    list := RetainStrictest(distinct);
    CollapseMeaning(deps);
    assert Enumerates(list, Collapse(deps)) by {
      forall d ensures d in list <==> d.job in Collapse(deps) && Collapse(deps)[d.job] == d.condition {
        StrictestIsCollapsed(deps, d);
      }
    }
    CanonicalEnumerates(deps);
    EnumerationUnique(list, Canonical(deps));
  }

  lemma StrictestIsCollapsed(deps: seq<DependencySpec>, d: DependencySpec)
    ensures d in deps && (d.condition.OnSuccess? || DependencySpec(d.job, OnSuccess) !in deps)
            <==> d.job in Collapse(deps) && Collapse(deps)[d.job] == d.condition
  {
    CollapseMeaning(deps);
    if d.job in Collapse(deps) {
      var e :| e in deps && e.job == d.job;
      assert e == DependencySpec(d.job, OnSuccess) || e == DependencySpec(d.job, OnTerminal);
      assert d == DependencySpec(d.job, OnSuccess) || d == DependencySpec(d.job, OnTerminal);
    }
  }
}
