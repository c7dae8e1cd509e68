/** Post-order closures of hard dependents, and what removing such a closure leaves behind. */
module Dependents {
  import opened Digraph
  import opened Services
  import opened Registry

  /** The seen map and the order that the recursive visits of one closure share. */
  class Walk {
    var seen: set<string>
    var order: seq<ServiceEntry>
    /** Names in the order their visits finished, those left out of order included. */
    ghost var finished: seq<string>

    constructor ()
      ensures seen == {} && order == [] && finished == []
    {
      seen, order, finished := {}, [], [];
    }

    ghost predicate Valid(entries: seq<ServiceEntry>, skip: set<string>, open: set<string>)
      reads this
    {
      WalkState(entries, skip, open, seen, order, finished)
    }
  }

  /** order lists the finished entries that are not skipped; what is seen but not finished is open. */
  ghost predicate WalkState(
    entries: seq<ServiceEntry>, skip: set<string>, open: set<string>,
    seen: set<string>, order: seq<ServiceEntry>, finished: seq<string>)
  {
    && seen <= Names(entries) && open <= seen
    && (forall n :: n in finished <==> n in seen - open)
    && (forall e :: e in order ==> e in entries)
    && NameSeq(order) == Kept(finished, skip)
    && Distinct(finished)
  }

  lemma CloseNode(entries: seq<ServiceEntry>, skip: set<string>, open: set<string>, seen: set<string>,
                  order: seq<ServiceEntry>, finished: seq<string>, e: ServiceEntry)
    requires WalkState(entries, skip, open + {e.cfg.name}, seen, order, finished)
    requires e in entries && e.cfg.name !in open
    ensures WalkState(entries, skip, open, seen, if e.cfg.name in skip then order
        else order + [e], finished + [e.cfg.name])
  {
    KeptAppend(finished, skip, e.cfg.name);
    assert NameSeq(order + [e]) == NameSeq(order) + [e.cfg.name];
  }

  function Kept(names: seq<string>, skip: set<string>): (kept: seq<string>)
    ensures forall n :: n in kept <==> n in names && n !in skip
  {
    if names == [] then []
    else
      var last := names[|names| - 1];
      assert names == names[..|names| - 1] + [last];
      var front := Kept(names[..|names| - 1], skip);
      if last in skip then front else front + [last]
  }

  lemma KeptAppend(names: seq<string>, skip: set<string>, n: string)
    ensures Kept(names + [n], skip) == if n in skip then Kept(names, skip) else Kept(names, skip) + [n]
  {
    assert (names + [n])[..|names|] == names;
  }

  /** Every dependent of a finished name finished before it. */
  ghost predicate DependentsFirst(g: Graph, finished: seq<string>) {
    forall i, d :: 0 <= i < |finished| && Edge(g, d, finished[i]) ==> d in finished[..i]
  }

  ghost predicate PostOrder(g: Graph, finished: seq<string>) {
    Acyclic(g) ==> DependentsFirst(g, finished)
  }

  /** root depends on every name whose visit is still open. */
  ghost predicate DependsOnOpen(g: Graph, root: string, open: set<string>) {
    forall o :: o in open ==> o == root || Reaches(g, root, o)
  }

  /** Names visited since before have all their dependents visited too. */
  ghost predicate UpClosed(g: Graph, before: set<string>, after: set<string>) {
    forall u, d :: u in after && u !in before && Edge(g, d, u) ==> d in after
  }

  lemma HardEdge(entries: seq<ServiceEntry>, e: ServiceEntry, dep: string)
    requires UniqueNames(entries) && e in entries && dep in e.cfg.dependsOn
    ensures Edge(HardGraph(entries), e.cfg.name, dep)
  {
  }

  lemma {:induction false} UpClosedReaches(g: Graph, s: set<string>, p: seq<string>, k: nat)
    requires UpClosed(g, {}, s) && Path(g, p) && k < |p| && p[|p| - 1] in s
    ensures p[k] in s
    decreases |p| - k
  {
    if k < |p| - 1 {
      UpClosedReaches(g, s, p, k + 1);
      assert Edge(g, p[k], p[k + 1]);
    }
  }

  /** Everything visited since before is a dependent of root, with all its own dependents. */
  ghost predicate Gathered(g: Graph, before: set<string>, seen: set<string>, root: string) {
    && before <= seen && UpClosed(g, before, seen)
    && forall u :: u in seen && u !in before ==> u == root || Reaches(g, u, root)
  }

  lemma GatherMore(g: Graph, before: set<string>, mid: set<string>, seen: set<string>, root: string, d: string)
    requires Gathered(g, before, mid, root) && Gathered(g, mid, seen, d) && Reaches(g, d, root)
    ensures Gathered(g, before, seen, root)
  {
    forall u | u in seen && u !in mid ensures u == root || Reaches(g, u, root) {
      if u != d { ReachesTrans(g, u, d, root); }
    }
  }

  /** Visit e and, before it, every entry that transitively names it as a hard dependency. */
  method Visit(entries: seq<ServiceEntry>, e: ServiceEntry, skip: set<string>, walk: Walk, ghost open: set<string>)
    requires UniqueNames(entries) && e in entries && walk.Valid(entries, skip, open)
    requires e.cfg.name !in walk.seen ==> DependsOnOpen(HardGraph(entries), e.cfg.name, open)
    requires PostOrder(HardGraph(entries), walk.finished)
    modifies walk
    ensures walk.Valid(entries, skip, open)
    ensures e.cfg.name in walk.seen && Gathered(HardGraph(entries), old(walk.seen), walk.seen, e.cfg.name)
    ensures PostOrder(HardGraph(entries), walk.finished)
    ensures e.cfg.name !in old(walk.seen) ==> walk.finished != [] && walk.finished[|walk.finished| - 1] == e.cfg.name
    decreases Names(entries) - walk.seen, 0
  {
    hide HardGraph, DependentsFirst, Acyclic, Reaches, Kept;
    if e.cfg.name in walk.seen { return; }
    ghost var before, n := walk.seen, e.cfg.name;
    walk.seen := walk.seen + {e.cfg.name};
    VisitDependents(entries, e, skip, walk, open + {n}, walk.seen);
    AllDependentsSeen(entries, e, before, walk.seen);
    CloseNode(entries, skip, open, walk.seen, walk.order, walk.finished, e);
    if Acyclic(HardGraph(entries)) { FinishLast(entries, walk.finished, walk.seen, open, e); }
    walk.finished := walk.finished + [n];
    walk.order := if e.cfg.name in skip then walk.order else walk.order + [e];
  }

  /** The loops of Visit over the registered entries. */
  method VisitDependents(entries: seq<ServiceEntry>, e: ServiceEntry, skip: set<string>, walk: Walk,
                         ghost open: set<string>, ghost before: set<string>)
    requires UniqueNames(entries) && e in entries && walk.Valid(entries, skip, open)
    requires Gathered(HardGraph(entries), before, walk.seen, e.cfg.name)
    requires e.cfg.name in open && DependsOnOpen(HardGraph(entries), e.cfg.name, open)
    requires PostOrder(HardGraph(entries), walk.finished)
    modifies walk
    ensures walk.Valid(entries, skip, open)
    ensures old(walk.seen) <= walk.seen && Gathered(HardGraph(entries), before, walk.seen, e.cfg.name)
    ensures PostOrder(HardGraph(entries), walk.finished)
    ensures forall d :: d in entries && e.cfg.name in d.cfg.dependsOn ==> d.cfg.name in walk.seen
    decreases Names(entries) - walk.seen, 2
  {
    for i := 0 to |entries|
      invariant walk.Valid(entries, skip, open) && old(walk.seen) <= walk.seen
      invariant Gathered(HardGraph(entries), before, walk.seen, e.cfg.name)
      invariant PostOrder(HardGraph(entries), walk.finished)
      invariant forall k :: 0 <= k < i && e.cfg.name in entries[k].cfg.dependsOn ==> entries[k].cfg.name in walk.seen
    {
      assert Names(entries) - walk.seen <= Names(entries) - old(walk.seen);
      VisitDependent(entries, entries[i], e, skip, walk, open, before);
    }
  }

  /** The inner loop of Visit: visit d when it names e as a hard dependency. */
  method VisitDependent(entries: seq<ServiceEntry>, d: ServiceEntry, e: ServiceEntry, skip: set<string>, walk: Walk,
                        ghost open: set<string>, ghost before: set<string>)
    requires UniqueNames(entries) && d in entries && e in entries && walk.Valid(entries, skip, open)
    requires Gathered(HardGraph(entries), before, walk.seen, e.cfg.name)
    requires e.cfg.name in open && DependsOnOpen(HardGraph(entries), e.cfg.name, open)
    requires PostOrder(HardGraph(entries), walk.finished)
    modifies walk
    ensures walk.Valid(entries, skip, open)
    ensures old(walk.seen) <= walk.seen && Gathered(HardGraph(entries), before, walk.seen, e.cfg.name)
    ensures PostOrder(HardGraph(entries), walk.finished)
    ensures e.cfg.name in d.cfg.dependsOn ==> d.cfg.name in walk.seen
    decreases Names(entries) - walk.seen, 1
  {
    ghost var g, n := HardGraph(entries), e.cfg.name;
    for j := 0 to |d.cfg.dependsOn|
      invariant walk.Valid(entries, skip, open) && old(walk.seen) <= walk.seen && Gathered(g, before, walk.seen, n)
      invariant PostOrder(g, walk.finished)
      invariant forall k :: 0 <= k < j && d.cfg.dependsOn[k] == n ==> d.cfg.name in walk.seen
    {
      if d.cfg.dependsOn[j] == e.cfg.name {
        HardEdge(entries, d, n);
        EdgeReaches(g, d.cfg.name, n);
        forall o | o in open ensures Reaches(g, d.cfg.name, o) {
          if o != n { ReachesTrans(g, d.cfg.name, n, o); }
        }
        ghost var mid := walk.seen;
        Visit(entries, d, skip, walk, open);
        GatherMore(g, before, mid, walk.seen, n, d.cfg.name);
      }
    }
  }

  lemma AllDependentsSeen(entries: seq<ServiceEntry>, e: ServiceEntry, before: set<string>, seen: set<string>)
    requires UniqueNames(entries) && Gathered(HardGraph(entries), before + {e.cfg.name}, seen, e.cfg.name)
    requires forall d :: d in entries && e.cfg.name in d.cfg.dependsOn ==> d.cfg.name in seen
    ensures Gathered(HardGraph(entries), before, seen, e.cfg.name)
  {
    var g := HardGraph(entries);
    forall d | Edge(g, d, e.cfg.name) ensures d in seen {
      var x := NodeOf(entries, d);
    }
  }

  lemma FinishLast(entries: seq<ServiceEntry>, finished: seq<string>, seen: set<string>, open: set<string>,
      e: ServiceEntry)
    requires UniqueNames(entries) && Acyclic(HardGraph(entries)) && DependentsFirst(HardGraph(entries), finished)
    requires forall n :: n in finished <==> n in seen - open - {e.cfg.name}
    requires forall o :: o in open ==> Reaches(HardGraph(entries), e.cfg.name, o)
    requires forall d :: d in entries && e.cfg.name in d.cfg.dependsOn ==> d.cfg.name in seen
    ensures DependentsFirst(HardGraph(entries), finished + [e.cfg.name])
  {
    var g, n := HardGraph(entries), e.cfg.name;
    var all := finished + [n];
    forall i, d | 0 <= i < |all| && Edge(g, d, all[i]) ensures d in all[..i] {
      if i < |finished| {
        assert d in finished[..i];
        assert all[..i] == finished[..i];
      } else {
        var x := NodeOf(entries, d);
        EdgeReaches(g, d, n);
        assert d != n;
        assert d !in open by {
          if d in open { ReachesTrans(g, d, n, d); }
        }
        assert all[..i] == finished;
      }
    }
  }

  /** e is one of the named roots or transitively hard-depends on one. */
  ghost predicate InClosure(entries: seq<ServiceEntry>, roots: set<string>, e: ServiceEntry)
    requires UniqueNames(entries)
  {
    e in entries && (e.cfg.name in roots || exists r :: r in roots && Reaches(HardGraph(entries), e.cfg.name, r))
  }

  lemma {:induction false} PostOrderReaches(g: Graph, finished: seq<string>, p: seq<string>, k: nat, i: nat)
    requires DependentsFirst(g, finished) && Path(g, p) && k < |p| - 1
    requires i < |finished| && p[|p| - 1] == finished[i]
    ensures p[k] in finished[..i]
    decreases |p| - k
  {
    assert Edge(g, p[k], p[k + 1]);
    if k + 1 < |p| - 1 {
      PostOrderReaches(g, finished, p, k + 1, i);
      var m :| 0 <= m < i && finished[m] == p[k + 1];
      assert p[k] in finished[..m];
      assert finished[..m] <= finished[..i];
    }
  }

  lemma {:induction false} KeptBefore(names: seq<string>, skip: set<string>, i: nat, j: nat, d: string)
    requires Distinct(names) && i < |names| && j < |Kept(names, skip)| && Kept(names, skip)[j] == names[i]
    requires d in names[..i] && d !in skip
    ensures d in Kept(names, skip)[..j]
  {
    var last := names[|names| - 1];
    var front := names[..|names| - 1];
    assert names == front + [last];
    if j < |Kept(front, skip)| {
      assert Kept(names, skip)[j] == Kept(front, skip)[j];
      assert Kept(front, skip)[j] in Kept(front, skip);
      assert i < |front|;
      assert front[..i] == names[..i];
      KeptBefore(front, skip, i, j, d);
      assert Kept(front, skip)[..j] == Kept(names, skip)[..j];
    } else {
      assert i == |front|;
      assert names[..i] == front && Kept(names, skip)[..j] == Kept(front, skip);
    }
  }

  lemma {:induction false} KeptDistinct(names: seq<string>, skip: set<string>)
    requires Distinct(names)
    ensures Distinct(Kept(names, skip))
  {
    if names != [] {
      var front, last := names[..|names| - 1], names[|names| - 1];
      assert names == front + [last];
      assert last !in front;
      KeptDistinct(front, skip);
      var kept := Kept(front, skip);
      assert last !in kept;
    }
  }

  lemma OrderFacts(entries: seq<ServiceEntry>, skip: set<string>, seen: set<string>, order: seq<ServiceEntry>,
      finished: seq<string>)
    requires UniqueNames(entries) && WalkState(entries, skip, {}, seen, order, finished)
    ensures UniqueNames(order)
    ensures forall e :: e in order <==> e in entries && e.cfg.name in seen && e.cfg.name !in skip
    ensures PostOrder(HardGraph(entries), finished) && Acyclic(HardGraph(entries)) ==>
        DependentBeforeDependency(HardGraph(entries), order)
  {
    var g, names := HardGraph(entries), NameSeq(order);
    KeptDistinct(finished, skip);
    forall e | e in entries && e.cfg.name in seen && e.cfg.name !in skip ensures e in order {
      var i :| 0 <= i < |names| && names[i] == e.cfg.name;
      SameNameSameEntry(entries, order[i], e);
    }
    forall e | e in order ensures e.cfg.name in seen && e.cfg.name !in skip {
      var i :| 0 <= i < |order| && order[i] == e;
      assert names[i] in Kept(finished, skip);
    }
    if PostOrder(g, finished) && Acyclic(g) {
      forall i, j | 0 <= i < |order| && 0 <= j < |order| && Reaches(g, order[i].cfg.name, order[j].cfg.name)
          ensures i < j {
        assert names[j] in Kept(finished, skip) && names[i] in Kept(finished, skip);
        var k :| 0 <= k < |finished| && finished[k] == names[j];
        var p :| Connects(g, p, names[i], names[j]);
        PostOrderReaches(g, finished, p, 0, k);
        KeptBefore(finished, skip, k, j, names[i]);
        var m :| 0 <= m < j && names[m] == names[i];
      }
    }
  }

  /** seen is closed upwards and holds nothing but roots and their transitive dependents. */
  ghost predicate FromRoots(g: Graph, roots: set<string>, seen: set<string>) {
    UpClosed(g, {}, seen) && forall n :: n in seen ==> n in roots || exists r :: r in roots && Reaches(g, n, r)
  }

  lemma NothingVisited(entries: seq<ServiceEntry>, g: Graph, skip: set<string>, roots: set<string>)
    ensures WalkState(entries, skip, {}, {}, [], []) && PostOrder(g, []) && FromRoots(g, roots, {})
  {
  }

  lemma GatherRoot(g: Graph, roots: set<string>, before: set<string>, seen: set<string>, root: string)
    requires FromRoots(g, roots, before) && Gathered(g, before, seen, root) && root in roots
    ensures FromRoots(g, roots, seen)
  {
  }

  lemma ClosureIsSeen(entries: seq<ServiceEntry>, roots: set<string>, seen: set<string>)
    requires UniqueNames(entries) && roots <= seen && FromRoots(HardGraph(entries), roots, seen)
    ensures forall e :: e in entries ==> (InClosure(entries, roots, e) <==> e.cfg.name in seen)
  {
    var g := HardGraph(entries);
    forall e | e in entries && InClosure(entries, roots, e) ensures e.cfg.name in seen {
      if e.cfg.name !in roots {
        var r :| r in roots && Reaches(g, e.cfg.name, r);
        var p :| Connects(g, p, e.cfg.name, r);
        UpClosedReaches(g, seen, p, 0);
      }
    }
  }

  /** The target and its transitive hard dependents, dependents first and the target last. */
  method HardDependentsOrder(entries: seq<ServiceEntry>, target: ServiceEntry) returns (order: seq<ServiceEntry>)
    requires UniqueNames(entries) && target in entries
    ensures forall e :: e in order <==> InClosure(entries, {target.cfg.name}, e)
    ensures UniqueNames(order) && order != [] && order[|order| - 1] == target
    ensures Acyclic(HardGraph(entries)) ==> DependentBeforeDependency(HardGraph(entries), order)
  {
    hide PostOrder, DependentBeforeDependency, HardGraph, Acyclic, Reaches, FromRoots;
    var walk := new Walk();
    ghost var g := HardGraph(entries);
    NothingVisited(entries, g, {}, {target.cfg.name});
    Visit(entries, target, {}, walk, {});
    order := walk.order;
    OrderFacts(entries, {}, walk.seen, order, walk.finished);
    GatherRoot(HardGraph(entries), {target.cfg.name}, {}, walk.seen, target.cfg.name);
    ClosureIsSeen(entries, {target.cfg.name}, walk.seen);
    assert Kept(walk.finished, {}) == NameSeq(order);
    NothingSkipped(walk.finished);
  }

  lemma {:induction false} NothingSkipped(names: seq<string>)
    ensures Kept(names, {}) == names
  {
    if names != [] { NothingSkipped(names[..|names| - 1]); }
  }

  /** The transitive hard dependents of the members that are not members themselves. */
  method ExternalDependents(entries: seq<ServiceEntry>, members: seq<ServiceEntry>, memberNames: set<string>)
    returns (order: seq<ServiceEntry>)
    requires UniqueNames(entries) && (forall m :: m in members ==> m in entries) && memberNames == Names(members)
    ensures forall e :: e in order <==> InClosure(entries, memberNames, e) && e.cfg.name !in memberNames
    ensures UniqueNames(order)
    ensures Acyclic(HardGraph(entries)) ==> DependentBeforeDependency(HardGraph(entries), order)
  {
    hide PostOrder, DependentBeforeDependency, HardGraph, Acyclic, UpClosed, Kept, FromRoots, Reaches;
    var walk := new Walk();
    ghost var g := HardGraph(entries);
    NothingVisited(entries, g, memberNames, memberNames);
    for i := 0 to |members|
      invariant walk.Valid(entries, memberNames, {}) && PostOrder(g, walk.finished)
      invariant FromRoots(g, memberNames, walk.seen) && Names(members[..i]) <= walk.seen
    {
      ghost var before := walk.seen;
      Visit(entries, members[i], memberNames, walk, {});
      GatherRoot(g, memberNames, before, walk.seen, members[i].cfg.name);
      assert members[..i + 1] == members[..i] + [members[i]];
    }
    assert members[..|members|] == members;
    order := walk.order;
    OrderFacts(entries, memberNames, walk.seen, order, walk.finished);
    ClosureIsSeen(entries, memberNames, walk.seen);
  }
}
