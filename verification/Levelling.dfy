/** Kahn levelling of an arbitrary subset of the registered entries. */
module Levelling {
  import opened Digraph
  import opened Services
  import opened NameOrder

  function InnerDeps(entries: seq<ServiceEntry>, n: string): set<string> {
    set e, d | e in entries && e.cfg.name == n && d in AllDeps(e.cfg) && d in Names(entries) :: d
  }

  /** The graph induced on the subset: edges that leave it are dropped. */
  function Induced(entries: seq<ServiceEntry>): Graph {
    map n | n in Names(entries) :: InnerDeps(entries, n)
  }

  /** A dependency chain inside the graph that starts at n and has the given number of edges. */
  ghost predicate Chain(g: Graph, n: string, p: seq<string>, edges: nat) {
    |p| == edges + 1 && p[0] == n && n in g && Path(g, p)
  }

  ghost predicate LongestChain(g: Graph, n: string, edges: nat) {
    (exists p :: Chain(g, n, p, edges)) && forall p, m: nat :: Chain(g, n, p, m) ==> m <= edges
  }

  /** The edges of the subset as (dependency, dependent) pairs, repeats included, in scan order. */
  function EdgesOf(names: set<string>, n: string, deps: seq<string>): seq<(string, string)> {
    if deps == [] then []
    else
      var front := EdgesOf(names, n, deps[..|deps| - 1]);
      if deps[|deps| - 1] in names then front + [(deps[|deps| - 1], n)] else front
  }

  function AllEdges(names: set<string>, entries: seq<ServiceEntry>): seq<(string, string)> {
    if entries == [] then []
    else
      var last := entries[|entries| - 1];
      AllEdges(names, entries[..|entries| - 1])
      + EdgesOf(names, last.cfg.name, last.cfg.dependsOn) + EdgesOf(names, last.cfg.name, last.cfg.softDependsOn)
  }

  /** How many edges into n come from a dependency that is not done. */
  function Pending(edges: seq<(string, string)>, done: set<string>, n: string): (c: nat)
    ensures c == 0 <==> forall d :: (d, n) in edges ==> d in done
  {
    if edges == [] then 0
    else
      var (d, t) := edges[|edges| - 1];
      assert edges == edges[..|edges| - 1] + [(d, t)];
      Pending(edges[..|edges| - 1], done, n) + if t == n && d !in done then 1 else 0
  }

  /** The dependents that edges lists for one dependency. */
  function Targets(edges: seq<(string, string)>, d: string): seq<string> {
    if edges == [] then []
    else
      var front := Targets(edges[..|edges| - 1], d);
      if edges[|edges| - 1].0 == d then front + [edges[|edges| - 1].1] else front
  }

  function Occurs(s: seq<string>, n: string): nat {
    if s == [] then 0 else Occurs(s[..|s| - 1], n) + if s[|s| - 1] == n then 1 else 0
  }

  lemma {:induction false} PendingDrop(edges: seq<(string, string)>, done: set<string>, d: string, n: string)
    requires d !in done
    ensures Pending(edges, done + {d}, n) + Occurs(Targets(edges, d), n) == Pending(edges, done, n)
  {
    if edges != [] {
      var front, last := edges[..|edges| - 1], edges[|edges| - 1];
      PendingDrop(front, done, d, n);
      if last.0 == d {
        assert Targets(edges, d)[..|Targets(front, d)|] == Targets(front, d);
      }
    }
  }

  lemma {:induction false} EdgesOfExact(names: set<string>, n: string, deps: seq<string>)
    ensures forall d, t :: (d, t) in EdgesOf(names, n, deps) <==> t == n && d in deps && d in names
  {
    if deps != [] {
      EdgesOfExact(names, n, deps[..|deps| - 1]);
      assert deps == deps[..|deps| - 1] + [deps[|deps| - 1]];
    }
  }

  lemma {:induction false} AllEdgesExact(names: set<string>, entries: seq<ServiceEntry>)
    ensures forall d, n :: (d, n) in AllEdges(names, entries) <==>
              d in names && exists e :: e in entries && e.cfg.name == n && d in AllDeps(e.cfg)
  {
    if entries != [] {
      var front, last := entries[..|entries| - 1], entries[|entries| - 1];
      AllEdgesExact(names, front);
      EdgesOfExact(names, last.cfg.name, last.cfg.dependsOn);
      EdgesOfExact(names, last.cfg.name, last.cfg.softDependsOn);
      assert entries == front + [last];
    }
  }

  lemma EdgesAreInduced(entries: seq<ServiceEntry>)
    ensures EdgesDescribe(Induced(entries), AllEdges(Names(entries), entries))
    ensures forall n, d :: Edge(Induced(entries), n, d) ==> d in Induced(entries)
  {
    AllEdgesExact(Names(entries), entries);
  }

  /** The bookkeeping of the sort for the edges counted so far. */
  ghost predicate Counted(names: set<string>, edges: seq<(string, string)>, done: set<string>,
                          inDegree: map<string, int>, children: map<string, seq<string>>)
  {
    && inDegree.Keys == names
    && (forall n :: n in names ==> inDegree[n] == Pending(edges, done, n))
    && (forall d :: Targets(edges, d) == if d in children then children[d] else [])
    && forall d, n :: (d, n) in edges ==> n in names
  }

  method AddEdge(ghost names: set<string>, ghost edges: seq<(string, string)>, inDegree: map<string, int>,
      children: map<string, seq<string>>,
                 dep: string, name: string)
    returns (inDegree': map<string, int>, children': map<string, seq<string>>)
    requires Counted(names, edges, {}, inDegree, children) && name in names
    ensures Counted(names, edges + [(dep, name)], {}, inDegree', children')
  {
    var already := if dep in children then children[dep] else [];
    children' := children[dep := already + [name]];
    inDegree' := inDegree[name := inDegree[name] + 1];
    var all := edges + [(dep, name)];
    assert all[..|edges|] == edges;
  }

  method AddEdges(names: set<string>, ghost edges: seq<(string, string)>, inDegree: map<string, int>,
      children: map<string, seq<string>>,
                  name: string, deps: seq<string>)
    returns (inDegree': map<string, int>, children': map<string, seq<string>>)
    requires Counted(names, edges, {}, inDegree, children) && name in names
    ensures Counted(names, edges + EdgesOf(names, name, deps), {}, inDegree', children')
  {
    hide Counted, AllEdges;
    inDegree', children' := inDegree, children;
    ghost var sofar := edges;
    for i := 0 to |deps|
      invariant Counted(names, sofar, {}, inDegree', children')
      invariant sofar == edges + EdgesOf(names, name, deps[..i])
    {
      EdgesOfStep(names, name, deps, i);
      if deps[i] in names {
        inDegree', children' := AddEdge(names, sofar, inDegree', children', deps[i], name);
        sofar := sofar + [(deps[i], name)];
      }
    }
    assert deps[..|deps|] == deps;
  }

  lemma EdgesOfStep(names: set<string>, n: string, deps: seq<string>, i: nat)
    requires i < |deps|
    ensures EdgesOf(names, n, deps[..i + 1]) == EdgesOf(names, n, deps[..i]) + if deps[i] in names then [(deps[i], n)]
        else []
  {
    assert deps[..i + 1][..i] == deps[..i];
  }

  method Count(entries: seq<ServiceEntry>)
    returns (inDegree: map<string, int>, children: map<string, seq<string>>, byName: map<string, ServiceEntry>)
    ensures byName.Keys == Names(entries) && forall n :: n in byName ==> byName[n] in entries && byName[n].cfg.name == n
    ensures Counted(Names(entries), AllEdges(Names(entries), entries), {}, inDegree, children)
  {
    inDegree, children, byName := map[], map[], map[];
    for i := 0 to |entries|
      invariant byName.Keys == Names(entries[..i]) && forall n :: n in byName ==>
          byName[n] in entries && byName[n].cfg.name == n
      invariant Counted(byName.Keys, [], {}, inDegree, children)
    {
      assert entries[..i + 1] == entries[..i] + [entries[i]];
      var name := entries[i].cfg.name;
      byName := byName[name := entries[i]];
      if name !in inDegree { inDegree := inDegree[name := 0]; }
    }
    assert entries[..|entries|] == entries;
    inDegree, children := CountEdges(entries, inDegree, children);
  }

  method CountEdges(entries: seq<ServiceEntry>, inDegree: map<string, int>, children: map<string, seq<string>>)
    returns (inDegree': map<string, int>, children': map<string, seq<string>>)
    requires Counted(Names(entries), [], {}, inDegree, children)
    ensures Counted(Names(entries), AllEdges(Names(entries), entries), {}, inDegree', children')
  {
    hide Counted, EdgesOf;
    inDegree', children' := inDegree, children;
    var names := Names(entries);
    ghost var sofar := [];
    for i := 0 to |entries|
      invariant Counted(names, sofar, {}, inDegree', children')
      invariant sofar == AllEdges(names, entries[..i])
    {
      var cfg := entries[i].cfg;
      inDegree', children' := AddEdges(names, sofar, inDegree', children', cfg.name, cfg.dependsOn);
      sofar := sofar + EdgesOf(names, cfg.name, cfg.dependsOn);
      inDegree', children' := AddEdges(names, sofar, inDegree', children', cfg.name, cfg.softDependsOn);
      sofar := sofar + EdgesOf(names, cfg.name, cfg.softDependsOn);
      assert entries[..i + 1][..i] == entries[..i];
    }
    assert entries[..|entries|] == entries;
  }

  /** The names with in-degree zero that no earlier level holds, sorted. */
  method ReadyNames(names: set<string>, visited: set<string>, inDegree: map<string, int>) returns (level: seq<string>)
    requires inDegree.Keys == names
    ensures Sorted(level) && Distinct(level)
    ensures forall n :: n in level <==> n in names && n !in visited && inDegree[n] == 0
  {
    level := [];
    var rest := names;
    while rest != {}
      invariant rest <= names && Distinct(level)
      invariant forall n :: n in level <==> n in names - rest && n !in visited && inDegree[n] == 0
    {
      var name :| name in rest;
      rest := rest - {name};
      if name !in visited && inDegree[name] == 0 { level := level + [name]; }
    }
    level := SortNames(level);
  }

  /** Mark name done: one fewer pending dependency for each edge out of it. */
  method Retire(ghost names: set<string>, ghost edges: seq<(string, string)>, ghost done: set<string>,
                inDegree: map<string, int>, children: map<string, seq<string>>, name: string)
    returns (inDegree': map<string, int>)
    requires Counted(names, edges, done, inDegree, children) && name in names && name !in done
    ensures Counted(names, edges, done + {name}, inDegree', children)
  {
    inDegree' := inDegree;
    var targets := if name in children then children[name] else [];
    TargetsExact(edges, name);
    for i := 0 to |targets|
      invariant inDegree'.Keys == names
      invariant forall n :: n in names ==> inDegree'[n] == inDegree[n] - Occurs(targets[..i], n)
    {
      assert targets[i] in Targets(edges, name);
      assert targets[..i + 1][..i] == targets[..i];
      inDegree' := inDegree'[targets[i] := inDegree'[targets[i]] - 1];
    }
    assert targets[..|targets|] == targets;
    forall n | n in names ensures inDegree'[n] == Pending(edges, done + {name}, n) {
      PendingDrop(edges, done, name, n);
    }
  }

  lemma {:induction false} TargetsExact(edges: seq<(string, string)>, d: string)
    ensures forall n :: n in Targets(edges, d) <==> (d, n) in edges
  {
    if edges != [] {
      TargetsExact(edges[..|edges| - 1], d);
      assert edges == edges[..|edges| - 1] + [edges[|edges| - 1]];
    }
  }

  /** rank gives the level of every node placed in the first k levels. */
  ghost predicate Ranked(g: Graph, rank: map<string, nat>, k: nat) {
    RanksBounded(g, rank, k) && RanksFall(g, rank) && RanksTight(g, rank) && (k > 0 ==> UnplacedHeld(g, rank, k - 1))
  }

  ghost predicate RanksBounded(g: Graph, rank: map<string, nat>, k: nat) {
    forall n :: n in rank ==> n in g && rank[n] < k
  }

  ghost predicate RanksFall(g: Graph, rank: map<string, nat>) {
    forall n, d :: n in rank && n in g && d in g[n] ==> d in rank && rank[d] < rank[n]
  }

  ghost predicate RanksTight(g: Graph, rank: map<string, nat>) {
    forall n :: n in rank && rank[n] > 0 ==> HasDepAt(g, rank, n, rank[n] - 1)
  }

  /** A node not placed yet was held back by a dependency: unplaced still, or in the last level k. */
  ghost predicate UnplacedHeld(g: Graph, rank: map<string, nat>, k: nat) {
    forall n :: n in g && n !in rank ==> HasUnplacedDep(g, rank, n) || HasDepAt(g, rank, n, k)
  }

  ghost predicate HasDepAt(g: Graph, rank: map<string, nat>, n: string, k: int) {
    n in g && exists d :: d in g[n] && d in rank && rank[d] == k
  }

  ghost predicate HasUnplacedDep(g: Graph, rank: map<string, nat>, n: string) {
    n in g && exists d :: d in g[n] && d !in rank
  }

  ghost predicate Extends(rank: map<string, nat>, k: nat, level: seq<string>, next: map<string, nat>) {
    && (forall n :: n in next <==> n in rank || n in level)
    && (forall n :: n in rank ==> n in next && next[n] == rank[n])
    && (forall n :: n in level ==> n in next && n !in rank && next[n] == k)
  }

  lemma KeepDepAt(g: Graph, rank: map<string, nat>, k: nat, level: seq<string>, next: map<string, nat>, n: string,
      j: int)
    requires Extends(rank, k, level, next) && HasDepAt(g, rank, n, j)
    ensures HasDepAt(g, next, n, j)
  {
    var d :| d in g[n] && d in rank && rank[d] == j;
    assert d in next && next[d] == j;
  }

  lemma PlaceDep(g: Graph, rank: map<string, nat>, k: nat, level: seq<string>, next: map<string, nat>, n: string)
    requires Extends(rank, k, level, next) && HasUnplacedDep(g, rank, n)
    ensures HasUnplacedDep(g, next, n) || HasDepAt(g, next, n, k)
  {
    var d :| d in g[n] && d !in rank;
    assert d in next ==> next[d] == k;
  }

  lemma NextFalls(g: Graph, rank: map<string, nat>, k: nat, level: seq<string>, next: map<string, nat>)
    requires RanksBounded(g, rank, k) && RanksFall(g, rank) && Extends(rank, k, level, next)
    requires forall n :: n in level ==> !HasUnplacedDep(g, rank, n)
    ensures RanksFall(g, next)
  {
    forall n, d | n in next && n in g && d in g[n] ensures d in next && next[d] < next[n] {
      if n !in rank { assert !HasUnplacedDep(g, rank, n); }
    }
  }

  lemma NextTight(g: Graph, rank: map<string, nat>, k: nat, level: seq<string>, next: map<string, nat>)
    requires RanksTight(g, rank) && Extends(rank, k, level, next) && (k > 0 ==> UnplacedHeld(g, rank, k - 1))
    requires forall n :: n in level ==> n in g && !HasUnplacedDep(g, rank, n)
    ensures RanksTight(g, next)
  {
    forall n | n in next && next[n] > 0 ensures HasDepAt(g, next, n, next[n] - 1) {
      KeepDepAt(g, rank, k, level, next, n, next[n] - 1);
    }
  }

  lemma NextRank(g: Graph, rank: map<string, nat>, k: nat, level: seq<string>, next: map<string, nat>)
    requires Ranked(g, rank, k) && Extends(rank, k, level, next)
    requires forall n :: n in level <==> n in g && n !in rank && !HasUnplacedDep(g, rank, n)
    ensures Ranked(g, next, k + 1)
  {
    NextFalls(g, rank, k, level, next);
    NextTight(g, rank, k, level, next);
    forall n | n in g && n !in next ensures HasUnplacedDep(g, next, n) || HasDepAt(g, next, n, k) {
      PlaceDep(g, rank, k, level, next, n);
    }
  }

  lemma {:induction false} ChainWithin(g: Graph, rank: map<string, nat>, p: seq<string>, i: nat)
    requires RanksFall(g, rank) && Path(g, p) && i < |p| && p[0] in rank
    ensures p[i] in rank && rank[p[i]] + i <= rank[p[0]]
  {
    if i > 0 {
      assert Edge(g, p[i - 1], p[i]);
      ChainWithin(g, rank, p, i - 1);
    }
  }

  lemma {:induction false} ChainExists(g: Graph, rank: map<string, nat>, k: nat, n: string) returns (p: seq<string>)
    requires Ranked(g, rank, k) && n in rank
    ensures Chain(g, n, p, rank[n])
    decreases rank[n]
  {
    if rank[n] == 0 {
      p := [n];
    } else {
      assert HasDepAt(g, rank, n, rank[n] - 1);
      var d :| d in g[n] && d in rank && rank[d] == rank[n] - 1;
      var q := ChainExists(g, rank, k, d);
      p := [n] + q;
      forall i | 0 <= i < |p| - 1 ensures Edge(g, p[i], p[i + 1]) {
        if i > 0 { assert Edge(g, q[i - 1], q[i]); }
      }
    }
  }

  /** The rank of a node is the length of its longest dependency chain. */
  lemma RankIsLongestChain(g: Graph, rank: map<string, nat>, k: nat, n: string)
    requires Ranked(g, rank, k) && n in rank
    ensures LongestChain(g, n, rank[n])
  {
    var p := ChainExists(g, rank, k, n);
    forall q, m: nat | Chain(g, n, q, m) ensures m <= rank[n] {
      ChainWithin(g, rank, q, m);
    }
  }

  ghost predicate Filled(entries: seq<ServiceEntry>, rank: map<string, nat>, levels: seq<seq<ServiceEntry>>) {
    && (forall k, e :: 0 <= k < |levels| && e in levels[k] ==>
         e in entries && e.cfg.name in rank && rank[e.cfg.name] == k)
    && (forall n :: n in rank ==> rank[n] < |levels| && n in Names(levels[rank[n]]))
    && (forall k :: 0 <= k < |levels| ==> levels[k] != [] && Sorted(NameSeq(levels[k])) && UniqueNames(levels[k]))
  }

  /** Each entry is in exactly one level; inside a level the names ascend. */
  ghost predicate Partition(entries: seq<ServiceEntry>, levels: seq<seq<ServiceEntry>>) {
    && (forall k, e :: 0 <= k < |levels| && e in levels[k] ==> e in entries)
    && (forall e :: e in entries ==> exists k :: 0 <= k < |levels| && e in levels[k])
    && (forall j, k, e :: 0 <= j < |levels| && 0 <= k < |levels| && e in levels[j] && e in levels[k] ==> j == k)
    && (forall k :: 0 <= k < |levels| ==> levels[k] != [] && Sorted(NameSeq(levels[k])) && UniqueNames(levels[k]))
  }

  /** The level of an entry is the length of its longest dependency chain inside the subset. */
  ghost predicate ByLongestChain(entries: seq<ServiceEntry>, levels: seq<seq<ServiceEntry>>) {
    forall k, e :: 0 <= k < |levels| && e in levels[k] ==> LongestChain(Induced(entries), e.cfg.name, k)
  }

  ghost predicate Levelled(entries: seq<ServiceEntry>, levels: seq<seq<ServiceEntry>>) {
    Partition(entries, levels) && ByLongestChain(entries, levels)
  }

  lemma FilledIsLevelled(entries: seq<ServiceEntry>, rank: map<string, nat>, levels: seq<seq<ServiceEntry>>)
    requires UniqueNames(entries) && rank.Keys == Names(entries)
    requires Ranked(Induced(entries), rank, |levels|) && Filled(entries, rank, levels)
    ensures Levelled(entries, levels)
  {
    forall k, e | 0 <= k < |levels| && e in levels[k] ensures LongestChain(Induced(entries), e.cfg.name, k) {
      RankIsLongestChain(Induced(entries), rank, |levels|, e.cfg.name);
    }
    FilledIsPartition(entries, rank, levels);
  }

  lemma FilledIsPartition(entries: seq<ServiceEntry>, rank: map<string, nat>, levels: seq<seq<ServiceEntry>>)
    requires UniqueNames(entries) && rank.Keys == Names(entries) && Filled(entries, rank, levels)
    ensures Partition(entries, levels)
  {
    forall e | e in entries ensures exists k :: 0 <= k < |levels| && e in levels[k] {
      var k := rank[e.cfg.name];
      var f := NodeOf(levels[k], e.cfg.name);
      SameNameSameEntry(entries, e, f);
    }
  }

  lemma StuckIsCyclic(g: Graph, rank: map<string, nat>, k: nat)
    requires Ranked(g, rank, k) && rank.Keys != g.Keys
    requires forall n, d :: Edge(g, n, d) ==> d in g
    requires forall n :: n in g && n !in rank ==> HasUnplacedDep(g, rank, n)
    ensures !Acyclic(g)
  {
    var rest := g.Keys - rank.Keys;
    assert rank.Keys <= g.Keys;
    assert !(g.Keys <= rank.Keys);
    var m :| m in g.Keys && m !in rank.Keys;
    assert m in rest;
    forall n | n in rest ensures HasSuccessor(g, rest, n) {
      var d :| d in g[n] && d !in rank;
      assert Edge(g, n, d);
    }
    NoSinkCycle(g, rest);
  }

  lemma CompleteIsAcyclic(g: Graph, rank: map<string, nat>, k: nat)
    requires Ranked(g, rank, k) && rank.Keys == g.Keys
    ensures Acyclic(g)
  {
    RankAcyclic(g, rank);
  }

  /** g is the graph that the counted edges describe. */
  ghost predicate EdgesDescribe(g: Graph, edges: seq<(string, string)>) {
    forall d, n :: (d, n) in edges <==> Edge(g, n, d)
  }

  /** In-degree zero means that every in-subset dependency is placed. */
  lemma ReadyMeansPlaced(g: Graph, edges: seq<(string, string)>, rank: map<string, nat>,
                         inDegree: map<string, int>, children: map<string, seq<string>>, level: seq<string>)
    requires Counted(g.Keys, edges, rank.Keys, inDegree, children) && EdgesDescribe(g, edges)
    requires Sorted(level) && Distinct(level)
    requires forall n :: n in level <==> n in g && n !in rank && inDegree[n] == 0
    ensures ReadyLevel(g, rank, level)
  {
    forall n | n in g ensures inDegree[n] == 0 <==> !HasUnplacedDep(g, rank, n) {
      assert forall d :: d in g[n] <==> Edge(g, n, d);
    }
  }

  function Elems(s: seq<string>): (r: set<string>)
    ensures forall n :: n in r <==> n in s
  {
    set n | n in s
  }

  lemma ElemsStep(s: seq<string>, i: nat)
    requires i < |s|
    ensures Elems(s[..i + 1]) == Elems(s[..i]) + {s[i]}
    ensures Distinct(s) ==> s[i] !in Elems(s[..i])
  {
    assert s[..i + 1] == s[..i] + [s[i]];
  }

  /** Place one level: retire its names in order and collect their entries. */
  method PlaceLevel(ghost names: set<string>, ghost edges: seq<(string, string)>, byName: map<string, ServiceEntry>,
      level: seq<string>,
                    visited: set<string>, inDegree: map<string, int>, children: map<string, seq<string>>)
    returns (visited': set<string>, inDegree': map<string, int>, levelEntries: seq<ServiceEntry>)
    requires Counted(names, edges, visited, inDegree, children) && byName.Keys == names
    requires Distinct(level) && forall n :: n in level ==> n in names && n !in visited
    ensures visited' == visited + Elems(level)
    ensures Counted(names, edges, visited', inDegree', children)
    ensures |levelEntries| == |level| && forall i :: 0 <= i < |level| ==> levelEntries[i] == byName[level[i]]
  {
    hide Counted;
    visited', inDegree', levelEntries := visited, inDegree, [];
    for i := 0 to |level|
      invariant visited' == visited + Elems(level[..i])
      invariant Counted(names, edges, visited', inDegree', children)
      invariant |levelEntries| == i && forall k :: 0 <= k < i ==> levelEntries[k] == byName[level[k]]
    {
      var name := level[i];
      ElemsStep(level, i);
      levelEntries := levelEntries + [byName[name]];
      inDegree' := Retire(names, edges, visited', inDegree', children, name);
      visited' := visited' + {name};
    }
    assert level[..|level|] == level;
  }

  lemma FillNext(entries: seq<ServiceEntry>, rank: map<string, nat>, levels: seq<seq<ServiceEntry>>, level: seq<string>,
                 levelEntries: seq<ServiceEntry>, next: map<string, nat>)
    requires Filled(entries, rank, levels) && Extends(rank, |levels|, level, next)
    requires level != [] && Sorted(level) && Distinct(level) && Looked(entries, level, levelEntries)
    ensures Filled(entries, next, levels + [levelEntries])
  {
    var all := levels + [levelEntries];
    forall k, e | 0 <= k < |all| && e in all[k] ensures e in entries && e.cfg.name in next && next[e.cfg.name] == k {
      if k == |levels| {
        var i :| 0 <= i < |levelEntries| && levelEntries[i] == e;
        assert level[i] in level;
      }
    }
    forall n | n in next ensures next[n] < |all| && n in Names(all[next[n]]) {
      if n in level {
        var i :| 0 <= i < |level| && level[i] == n;
        assert levelEntries[i] in levelEntries;
      }
    }
  }

  /** What the rounds of the sort have established about the levels built so far. */
  ghost predicate Built(g: Graph, entries: seq<ServiceEntry>, rank: map<string, nat>, levels: seq<seq<ServiceEntry>>) {
    Ranked(g, rank, |levels|) && Filled(entries, rank, levels)
  }

  ghost predicate ReadyLevel(g: Graph, rank: map<string, nat>, level: seq<string>) {
    && Sorted(level) && Distinct(level)
    && forall n :: n in level <==> n in g && n !in rank && !HasUnplacedDep(g, rank, n)
  }

  /** The entries of a level, by name. */
  ghost predicate Looked(entries: seq<ServiceEntry>, level: seq<string>, levelEntries: seq<ServiceEntry>) {
    NameSeq(levelEntries) == level && forall e :: e in levelEntries ==> e in entries
  }

  ghost function Extend(rank: map<string, nat>, k: nat, level: seq<string>): (next: map<string, nat>)
    requires forall n :: n in level ==> n !in rank
    ensures Extends(rank, k, level, next) && next.Keys == rank.Keys + Elems(level)
  {
    rank + map n | n in level :: k
  }

  lemma BuildNext(g: Graph, entries: seq<ServiceEntry>, rank: map<string, nat>, levels: seq<seq<ServiceEntry>>,
      level: seq<string>,
                  levelEntries: seq<ServiceEntry>)
    requires Built(g, entries, rank, levels) && ReadyLevel(g, rank, level) && level != []
    requires Looked(entries, level, levelEntries)
    ensures Built(g, entries, Extend(rank, |levels|, level), levels + [levelEntries])
  {
    var next := Extend(rank, |levels|, level);
    NextRank(g, rank, |levels|, level, next);
    FillNext(entries, rank, levels, level, levelEntries, next);
  }

  lemma StuckMeansCycle(g: Graph, entries: seq<ServiceEntry>, rank: map<string, nat>, levels: seq<seq<ServiceEntry>>,
      level: seq<string>)
    requires Built(g, entries, rank, levels) && ReadyLevel(g, rank, level) && level == [] && |rank.Keys| < |entries|
    requires g.Keys == Names(entries) && forall n, d :: Edge(g, n, d) ==> d in g
    ensures !UniqueNames(entries) || !Acyclic(g)
  {
    NamesCount(entries);
    if rank.Keys != g.Keys {
      assert forall n :: n in g && n !in rank ==> n !in level;
      StuckIsCyclic(g, rank, |levels|);
    }
  }

  /** Groups entries into levels along their in-subset dependency edges. */
  method TopoSort(entries: seq<ServiceEntry>) returns (levels: seq<seq<ServiceEntry>>, cycle: bool)
    ensures cycle <==> !UniqueNames(entries) || !Acyclic(Induced(entries))
    ensures cycle ==> levels == []
    ensures !cycle ==> Levelled(entries, levels)
  {
    if |entries| == 0 {
      CompleteIsAcyclic(Induced(entries), map[], 0);
      return [], false;
    }
    var inDegree, children, byName := Count(entries);
    ghost var g, rank := Induced(entries), map[];
    EdgesAreInduced(entries);
    levels, cycle, rank := Kahn(g, AllEdges(Names(entries), entries), entries, inDegree, children, byName);
    if !cycle { AllPlacedIsSorted(g, entries, rank, levels); }
  }

  lemma AllPlacedIsSorted(g: Graph, entries: seq<ServiceEntry>, rank: map<string, nat>, levels: seq<seq<ServiceEntry>>)
    requires g == Induced(entries) && Built(g, entries, rank, levels) && rank.Keys <= g.Keys && |rank.Keys| >= |entries|
    ensures UniqueNames(entries) && Acyclic(g) && Levelled(entries, levels)
  {
    AllPlaced(entries, rank.Keys);
    CompleteIsAcyclic(g, rank, |levels|);
    FilledIsLevelled(entries, rank, levels);
  }

  /** The rounds of the sort: peel off the names without pending dependencies until all are placed. */
  method Kahn(ghost g: Graph, ghost edges: seq<(string, string)>, entries: seq<ServiceEntry>,
              inDegree0: map<string, int>, children: map<string, seq<string>>, byName: map<string, ServiceEntry>)
    returns (levels: seq<seq<ServiceEntry>>, cycle: bool, ghost rank: map<string, nat>)
    requires g.Keys == Names(entries) == byName.Keys && EdgesDescribe(g, edges) && forall n, d :: Edge(g, n, d) ==>
        d in g
    requires Counted(g.Keys, edges, {}, inDegree0, children)
    requires forall n :: n in byName ==> byName[n] in entries && byName[n].cfg.name == n
    ensures cycle ==> levels == [] && (!UniqueNames(entries) || !Acyclic(g))
    ensures !cycle ==> Built(g, entries, rank, levels) && rank.Keys <= g.Keys && |rank.Keys| >= |entries|
  {
    levels, cycle, rank := [], false, map[];
    var visited, inDegree := {}, inDegree0;
    BuildNone(g, entries);
    hide *;
    while |visited| < |entries|
      invariant visited == rank.Keys && rank.Keys <= g.Keys && Built(g, entries, rank, levels)
      invariant Counted(g.Keys, edges, visited, inDegree, children)
      decreases g.Keys - visited
    {
      CountedNames(g.Keys, edges, visited, inDegree, children);
      var level := ReadyNames(byName.Keys, visited, inDegree);
      ReadyMeansPlaced(g, edges, rank, inDegree, children, level);
      if |level| == 0 {
        StuckMeansCycle(g, entries, rank, levels, level);
        return [], true, rank;
      }
      var levelEntries;
      visited, inDegree, levelEntries := PlaceLevel(g.Keys, edges, byName, level, visited, inDegree, children);
      LookedUp(entries, byName, level, levelEntries);
      BuildNext(g, entries, rank, levels, level, levelEntries);
      assert level[0] in visited && level[0] !in rank;
      rank := Extend(rank, |levels|, level);
      levels := levels + [levelEntries];
    }
  }

  lemma BuildNone(g: Graph, entries: seq<ServiceEntry>)
    ensures Built(g, entries, map[], [])
  {
  }

  lemma CountedNames(names: set<string>, edges: seq<(string, string)>, done: set<string>, inDegree: map<string, int>,
      children: map<string, seq<string>>)
    requires Counted(names, edges, done, inDegree, children)
    ensures inDegree.Keys == names
  {
  }

  lemma LookedUp(entries: seq<ServiceEntry>, byName: map<string, ServiceEntry>, level: seq<string>,
      levelEntries: seq<ServiceEntry>)
    requires forall n :: n in byName ==> byName[n] in entries && byName[n].cfg.name == n
    requires |levelEntries| == |level| && forall i :: 0 <= i < |level| ==>
        level[i] in byName && levelEntries[i] == byName[level[i]]
    ensures Looked(entries, level, levelEntries)
  {
  }

  lemma AllPlaced(entries: seq<ServiceEntry>, visited: set<string>)
    requires visited <= Names(entries) && |visited| >= |entries|
    ensures UniqueNames(entries) && visited == Names(entries)
  {
    NamesCount(entries);
    SubsetSize(visited, Names(entries));
  }

  lemma {:induction false} SubsetSize(a: set<string>, b: set<string>)
    requires a <= b
    ensures |a| <= |b| && (|a| == |b| ==> a == b)
  {
    assert b == a + (b - a);
    if |a| == |b| { assert b - a == {}; }
  }

  /** A subset of an acyclic registry never reports a cycle. */
  lemma SubsetOfRegistrySorts(part: seq<ServiceEntry>, entries: seq<ServiceEntry>)
    requires UniqueNames(entries) && Acyclic(DepGraph(entries))
    requires UniqueNames(part) && forall e :: e in part ==> e in entries
    ensures Acyclic(Induced(part))
  {
    forall a, b | Edge(Induced(part), a, b) ensures Edge(DepGraph(entries), a, b) {
      var e :| e in part && e.cfg.name == a && b in AllDeps(e.cfg);
      GraphAt(entries, e);
    }
    SubgraphAcyclic(Induced(part), DepGraph(entries));
  }

  lemma LongestIsUnique(g: Graph, n: string, j: nat, k: nat)
    requires LongestChain(g, n, j) && LongestChain(g, n, k)
    ensures j == k
  {
    var p :| Chain(g, n, p, j);
    var q :| Chain(g, n, q, k);
  }

  /** Whatever order the library walks its maps in, the levels come out the same. */
  lemma LevelsDeterministic(entries: seq<ServiceEntry>, a: seq<seq<ServiceEntry>>, b: seq<seq<ServiceEntry>>)
    requires UniqueNames(entries) && Levelled(entries, a) && Levelled(entries, b)
    ensures a == b
  {
    SameCount(entries, a, b);
    SameCount(entries, b, a);
    forall k | 0 <= k < |a| ensures a[k] == b[k] {
      SameLevel(entries, a, b, k);
      SameLevel(entries, b, a, k);
      SameSortedEntries(entries, a[k], b[k]);
    }
  }

  lemma SameSortedEntries(entries: seq<ServiceEntry>, a: seq<ServiceEntry>, b: seq<ServiceEntry>)
    requires UniqueNames(entries) && UniqueNames(a) && UniqueNames(b) && Sorted(NameSeq(a)) && Sorted(NameSeq(b))
    requires forall e :: e in a ==> e in entries && e in b
    requires forall e :: e in b ==> e in a
    ensures a == b
  {
    forall n ensures n in NameSeq(a) <==> n in NameSeq(b) {
      InNameSeq(a, n);
      InNameSeq(b, n);
    }
    SortedUnique(NameSeq(a), NameSeq(b));
    forall i | 0 <= i < |a| ensures a[i] == b[i] {
      assert NameSeq(a)[i] == NameSeq(b)[i];
      assert a[i] in a && b[i] in b;
      SameNameSameEntry(entries, a[i], b[i]);
    }
  }

  lemma InNameSeq(entries: seq<ServiceEntry>, n: string)
    ensures n in NameSeq(entries) <==> n in Names(entries)
    ensures UniqueNames(entries) ==> Distinct(NameSeq(entries))
  {
    if n in Names(entries) {
      var e := NodeOf(entries, n);
      var i :| 0 <= i < |entries| && entries[i] == e;
      assert NameSeq(entries)[i] == n;
    }
  }

  lemma SameLevel(entries: seq<ServiceEntry>, a: seq<seq<ServiceEntry>>, b: seq<seq<ServiceEntry>>, k: nat)
    requires UniqueNames(entries) && Levelled(entries, a) && Levelled(entries, b) && k < |a|
    ensures k < |b| && forall e :: e in a[k] ==> e in b[k]
  {
    forall e | e in a[k] ensures k < |b| && e in b[k] {
      var j :| 0 <= j < |b| && e in b[j];
      LongestIsUnique(Induced(entries), e.cfg.name, j, k);
    }
    assert a[k][0] in a[k];
  }

  lemma SameCount(entries: seq<ServiceEntry>, a: seq<seq<ServiceEntry>>, b: seq<seq<ServiceEntry>>)
    requires UniqueNames(entries) && Levelled(entries, a) && Levelled(entries, b)
    ensures |a| <= |b|
  {
    if |a| > 0 { SameLevel(entries, a, b, |a| - 1); }
  }

  lemma ReachesIsHigher(g: Graph, a: string, b: string, j: nat, k: nat)
    requires LongestChain(g, a, j) && LongestChain(g, b, k) && Reaches(g, a, b)
    ensures k < j
  {
    var p :| Connects(g, p, a, b);
    var q :| Chain(g, b, q, k);
    PathJoin(g, p, q);
    assert Edge(g, p[0], p[1]);
    assert Chain(g, a, p + q[1..], |p| - 1 + k);
  }

  /** Every entry that depends on another one, directly or through the subset, is stopped before it. */
  ghost predicate StopsDependentsFirst(entries: seq<ServiceEntry>, order: seq<ServiceEntry>) {
    && UniqueNames(order) && (forall e :: e in order ==> e in entries) && (forall e :: e in entries ==> e in order)
    && DependentBeforeDependency(Induced(entries), order)
  }

  /** order lists the given levels from the last one down; at[i] is the level order[i] came from. */
  ghost predicate Descending(levels: seq<seq<ServiceEntry>>, order: seq<ServiceEntry>, at: seq<nat>, low: nat) {
    && |at| == |order|
    && (forall i :: 0 <= i < |order| ==> low <= at[i] < |levels| && order[i] in levels[at[i]])
    && (forall i, j :: 0 <= i < j < |order| ==> at[j] <= at[i])
    && (forall k, e :: low <= k < |levels| && e in levels[k] ==> e in order)
  }

  lemma DescendOne(levels: seq<seq<ServiceEntry>>, order: seq<ServiceEntry>, at: seq<nat>, low: nat)
    requires low < |levels| && Descending(levels, order, at, low + 1)
    ensures Descending(levels, order + levels[low], at + seq(|levels[low]|, k => low), low)
  {
  }

  lemma DescendUnique(entries: seq<ServiceEntry>, levels: seq<seq<ServiceEntry>>, order: seq<ServiceEntry>,
      at: seq<nat>, low: nat)
    requires UniqueNames(entries) && Partition(entries, levels)
    requires low < |levels| && Descending(levels, order, at, low + 1) && UniqueNames(order)
    ensures UniqueNames(order + levels[low])
  {
    var all := order + levels[low];
    forall i, j | 0 <= i < j < |all| ensures all[i].cfg.name != all[j].cfg.name {
      if i < |order| <= j {
        assert all[j] in levels[low] && all[i] in levels[at[i]];
        if all[i].cfg.name == all[j].cfg.name { SameNameSameEntry(entries, all[i], all[j]); }
      }
    }
  }

  /** The teardown loop over the levels in reverse. A cyclic subset falls back to registration
      order, so that every entry is still reached. */
  method StopOrder(entries: seq<ServiceEntry>) returns (order: seq<ServiceEntry>, cycle: bool)
    ensures cycle <==> !UniqueNames(entries) || !Acyclic(Induced(entries))
    ensures cycle ==> order == entries
    ensures !cycle ==> StopsDependentsFirst(entries, order)
  {
    var levels;
    levels, cycle := TopoSort(entries);
    if cycle { return entries, cycle; }
    order := [];
    ghost var at: seq<nat> := [];
    var i: nat := |levels|;
    while i > 0
      invariant i <= |levels| && Descending(levels, order, at, i) && UniqueNames(order)
    {
      i := i - 1;
      DescendUnique(entries, levels, order, at, i);
      DescendOne(levels, order, at, i);
      order, at := order + levels[i], at + seq(|levels[i]|, k => i);
    }
    DescendingStops(entries, levels, order, at);
  }

  lemma DescendingStops(entries: seq<ServiceEntry>, levels: seq<seq<ServiceEntry>>, order: seq<ServiceEntry>,
      at: seq<nat>)
    requires Levelled(entries, levels) && Descending(levels, order, at, 0) && UniqueNames(order)
    ensures StopsDependentsFirst(entries, order)
  {
    DescendingCovers(entries, levels, order, at);
    DescendingRespects(entries, levels, order, at);
  }

  lemma DescendingCovers(entries: seq<ServiceEntry>, levels: seq<seq<ServiceEntry>>, order: seq<ServiceEntry>,
      at: seq<nat>)
    requires Partition(entries, levels) && Descending(levels, order, at, 0)
    ensures forall e :: e in order ==> e in entries
    ensures forall e :: e in entries ==> e in order
  {
  }

  lemma DescendingRespects(entries: seq<ServiceEntry>, levels: seq<seq<ServiceEntry>>, order: seq<ServiceEntry>,
      at: seq<nat>)
    requires ByLongestChain(entries, levels) && Descending(levels, order, at, 0)
    ensures DependentBeforeDependency(Induced(entries), order)
  {
    var g := Induced(entries);
    forall i, j | 0 <= i < |order| && 0 <= j < |order| && Reaches(g, order[i].cfg.name, order[j].cfg.name)
        ensures i < j {
      ReachesIsHigher(g, order[i].cfg.name, order[j].cfg.name, at[i], at[j]);
    }
  }
}
