/** Registration: the entry slice, its name index, the depth-first cycle check and removal. */
module Registry {
  import opened Digraph
  import opened Services

  datatype RegisterError =
    | UnsupportedOption
    | InvalidCron
    | DuplicateName
    | DependencyCycle
    | DependencyNotFound
    | DependencyRemoving
    | DependencyDepthExceeded
    | OrchestratorStopping
    | OrchestratorStopped

  datatype Result<+T> = Success(value: T) | Failure(error: RegisterError)

  datatype Option<+T> = None | Some(value: T)

  const MAX_DEPENDENCY_DEPTH: nat := 10000

  /** The visited map that one cycle check shares between all its recursive calls. */
  class NameSet {
    var names: set<string>

    constructor ()
      ensures names == {}
    {
      names := {};
    }
  }

  /** What the cycle check must find for one hard dependency of a service named n. */
  ghost function HardVerdict(g: Graph, removing: set<string>, n: string, d: string): Option<RegisterError> {
    if d == n then Some(DependencyCycle)
    else if d !in g then Some(DependencyNotFound)
    else if d in removing then Some(DependencyRemoving)
    else if Reaches(g, d, n) then Some(DependencyCycle)
    else None
  }

  /** A soft dependency may be absent; it only must not close a cycle. */
  ghost function SoftVerdict(g: Graph, n: string, d: string): Option<RegisterError> {
    if d == n || (d in g && Reaches(g, d, n)) then Some(DependencyCycle) else None
  }

  /** The first fault over the hard dependencies in order, then the soft ones. */
  ghost function FirstFault(g: Graph, removing: set<string>, n: string, hard: seq<string>, soft: seq<string>)
    : (fault: Option<RegisterError>)
    ensures fault.Some? ==> fault.value in {DependencyCycle, DependencyNotFound, DependencyRemoving}
    decreases |hard| + |soft|
  {
    if hard != [] then
      if HardVerdict(g, removing, n, hard[0]).Some? then HardVerdict(g, removing, n, hard[0])
      else FirstFault(g, removing, n, hard[1..], soft)
    else if soft != [] then
      if SoftVerdict(g, n, soft[0]).Some? then SoftVerdict(g, n, soft[0])
      else FirstFault(g, removing, n, [], soft[1..])
    else None
  }

  /** A fault that is reported is there. */
  lemma {:induction false} FaultIsReal(g: Graph, removing: set<string>, n: string, hard: seq<string>, soft: seq<string>)
    ensures FirstFault(g, removing, n, hard, soft) == Some(DependencyNotFound) ==> exists d :: d in hard && d !in g
    ensures FirstFault(g, removing, n, hard, soft) == Some(DependencyRemoving) ==>
              exists d :: d in hard && d in g && d in removing
    ensures FirstFault(g, removing, n, hard, soft) == Some(DependencyCycle) ==>
              exists d :: (d in hard || d in soft) && (d == n || Reaches(g, d, n))
    decreases |hard| + |soft|
  {
    if hard != [] {
      FaultIsReal(g, removing, n, hard[1..], soft);
      assert hard[0] in hard && forall d :: d in hard[1..] ==> d in hard;
    } else if soft != [] {
      FaultIsReal(g, removing, n, [], soft[1..]);
      assert soft[0] in soft && forall d :: d in soft[1..] ==> d in soft;
    }
  }

  lemma FaultNamed(entries: seq<ServiceEntry>, removing: set<string>, cfg: RegisterConfig)
    requires UniqueNames(entries)
    ensures var fault := FirstFault(DepGraph(entries), removing, cfg.name, cfg.dependsOn, cfg.softDependsOn);
      && (fault == Some(DependencyNotFound) ==> exists d :: d in cfg.dependsOn && d !in Names(entries))
      && (fault == Some(DependencyRemoving) ==> exists d :: d in cfg.dependsOn && d in removing)
  {
    FaultIsReal(DepGraph(entries), removing, cfg.name, cfg.dependsOn, cfg.softDependsOn);
    GraphNodes(entries);
  }

  lemma {:induction false} FirstFaultHard(g: Graph, removing: set<string>, n: string, hard: seq<string>,
      soft: seq<string>)
    ensures var h := FirstFault(g, removing, n, hard, []);
            FirstFault(g, removing, n, hard, soft) == if h.Some? then h else FirstFault(g, removing, n, [], soft)
    ensures FirstFault(g, removing, n, hard, []).None? <==>
        forall d :: d in hard ==> HardVerdict(g, removing, n, d).None?
  {
    if hard != [] { FirstFaultHard(g, removing, n, hard[1..], soft); }
  }

  lemma {:induction false} FirstFaultSoft(g: Graph, removing: set<string>, n: string, soft: seq<string>)
    ensures FirstFault(g, removing, n, [], soft).None? <==> forall d :: d in soft ==> SoftVerdict(g, n, d).None?
  {
    if soft != [] { FirstFaultSoft(g, removing, n, soft[1..]); }
  }

  /** cfg may be appended: its name is free, its hard dependencies are registered and staying,
      and it closes no cycle. */
  ghost predicate Admissible(entries: seq<ServiceEntry>, removing: set<string>, cfg: RegisterConfig)
    requires UniqueNames(entries)
  {
    && cfg.name !in Names(entries)
    && (forall d :: d in cfg.dependsOn ==> d in Names(entries) && d !in removing)
    && ClosesNoCycle(DepGraph(entries), cfg)
  }

  ghost predicate ClosesNoCycle(g: Graph, cfg: RegisterConfig) {
    cfg.name !in AllDeps(cfg) && forall d :: d in AllDeps(cfg) ==> !Reaches(g, d, cfg.name)
  }

  lemma FaultFree(entries: seq<ServiceEntry>, removing: set<string>, cfg: RegisterConfig)
    requires UniqueNames(entries) && cfg.name !in Names(entries)
    ensures FirstFault(DepGraph(entries), removing, cfg.name, cfg.dependsOn, cfg.softDependsOn).None?
            <==> Admissible(entries, removing, cfg)
  {
    var g := DepGraph(entries);
    FirstFaultHard(g, removing, cfg.name, cfg.dependsOn, cfg.softDependsOn);
    FirstFaultSoft(g, removing, cfg.name, cfg.softDependsOn);
    forall d | d in AllDeps(cfg) && Reaches(g, d, cfg.name) ensures d in g {
      var p :| Connects(g, p, d, cfg.name);
      assert Edge(g, p[0], p[1]);
    }
    if Admissible(entries, removing, cfg) {
      assert forall d :: d in cfg.dependsOn || d in cfg.softDependsOn ==> d in AllDeps(cfg);
    }
  }

  /** u was visited between the two moments, and nothing reachable from it was missed. */
  ghost predicate Explored(g: Graph, before: set<string>, after: set<string>, target: string) {
    forall u, v :: u in after && u !in before && Edge(g, u, v) ==> v != target && (v in g ==> v in after)
  }

  lemma ExploredNode(entries: seq<ServiceEntry>, e: ServiceEntry, before: set<string>, mid: set<string>,
      after: set<string>, target: string)
    requires UniqueNames(entries) && e in entries && mid <= after
    requires Explored(DepGraph(entries), before + {e.cfg.name}, mid, target)
    requires Explored(DepGraph(entries), mid, after, target)
    requires forall d :: d in e.cfg.dependsOn ==> d != target && (d in Names(entries) ==> d in mid)
    requires forall d :: d in e.cfg.softDependsOn ==> d != target && (d in Names(entries) ==> d in after)
    ensures Explored(DepGraph(entries), before, after, target)
  {
    GraphAt(entries, e);
    GraphNodes(entries);
  }

  /** The nodes whose expansion is still open form one walk of distinct registered names. */
  ghost predicate OpenWalk(g: Graph, walk: seq<string>, visited: set<string>) {
    Path(g, walk) && Distinct(walk) && forall i :: 0 <= i < |walk| ==> walk[i] in visited && walk[i] in g
  }

  ghost predicate TooDeepWalk(g: Graph, walk: seq<string>) {
    |walk| == MAX_DEPENDENCY_DEPTH + 1 && Path(g, walk) && Distinct(walk)
    && forall i :: 0 <= i < |walk| ==> walk[i] in g
  }

  lemma TooDeepNeedsEntries(entries: seq<ServiceEntry>, walk: seq<string>)
    requires UniqueNames(entries) && TooDeepWalk(DepGraph(entries), walk)
    ensures |entries| > MAX_DEPENDENCY_DEPTH == 10000
  {
    DistinctFits(walk, Names(entries));
    NamesCount(entries);
  }

  /** Entries of the slice without one entry, in order. */
  function Without(entries: seq<ServiceEntry>, e: ServiceEntry): (rest: seq<ServiceEntry>)
    ensures forall f :: f in rest ==> f in entries && f != e
    ensures forall f :: f in entries && f != e ==> f in rest
  {
    if entries == [] then []
    else
      var last := entries[|entries| - 1];
      assert entries == entries[..|entries| - 1] + [last];
      var front := Without(entries[..|entries| - 1], e);
      if last == e then front else front + [last]
  }

  lemma {:induction false} WithoutUnique(entries: seq<ServiceEntry>, e: ServiceEntry)
    requires UniqueNames(entries)
    ensures UniqueNames(Without(entries, e))
  {
    if entries != [] {
      var front, last := entries[..|entries| - 1], entries[|entries| - 1];
      assert forall i :: 0 <= i < |front| ==> front[i] == entries[i];
      WithoutUnique(front, e);
      AppendGraph(Without(front, e), last);
    }
  }

  lemma WithoutNames(entries: seq<ServiceEntry>, e: ServiceEntry)
    requires UniqueNames(entries) && e in entries
    ensures UniqueNames(Without(entries, e))
    ensures Names(Without(entries, e)) == Names(entries) - {e.cfg.name}
  {
    WithoutUnique(entries, e);
    forall n | n in Names(entries) && n != e.cfg.name ensures n in Names(Without(entries, e)) {
      var f := NodeOf(entries, n);
    }
  }

  /** Removal keeps names unique and takes exactly one node out of the graph. */
  lemma WithoutGraph(entries: seq<ServiceEntry>, e: ServiceEntry)
    requires UniqueNames(entries) && e in entries
    ensures UniqueNames(Without(entries, e))
    ensures Names(Without(entries, e)) == Names(entries) - {e.cfg.name}
    ensures DepGraph(Without(entries, e)) == DepGraph(entries) - {e.cfg.name}
  {
    hide *;
    var rest := Without(entries, e);
    WithoutNames(entries, e);
    GraphNodes(entries);
    GraphNodes(rest);
    var g, h := DepGraph(entries), DepGraph(rest);
    forall n | n in h ensures n in g && h[n] == g[n] {
      var f := NodeOf(rest, n);
      GraphAt(rest, f);
      GraphAt(entries, f);
    }
    WithoutNode(g, h, e.cfg.name);
  }

  lemma WithoutNode(g: Graph, h: Graph, n: string)
    requires h.Keys == g.Keys - {n} && forall k :: k in h ==> k in g && h[k] == g[k]
    ensures h == g - {n}
  {
  }

  /** Removal keeps the graph acyclic. */
  lemma WithoutKeeps(entries: seq<ServiceEntry>, e: ServiceEntry)
    requires UniqueNames(entries) && Acyclic(DepGraph(entries)) && e in entries
    ensures UniqueNames(Without(entries, e)) && Acyclic(DepGraph(Without(entries, e)))
  {
    WithoutGraph(entries, e);
    SubgraphAcyclic(DepGraph(Without(entries, e)), DepGraph(entries));
  }

  method FilterOut(entries: seq<ServiceEntry>, e: ServiceEntry) returns (filtered: seq<ServiceEntry>)
    ensures filtered == Without(entries, e)
  {
    filtered := [];
    for i := 0 to |entries|
      invariant filtered == Without(entries[..i], e)
    {
      assert entries[..i + 1][..i] == entries[..i];
      if entries[i] != e { filtered := filtered + [entries[i]]; }
    }
    assert entries[..|entries|] == entries;
  }

  lemma AppendKeepsHardDeps(entries: seq<ServiceEntry>, e: ServiceEntry)
    requires HardDepsRegistered(entries)
    ensures HardDepsRegistered(entries + [e]) <==>
        forall d :: d in e.cfg.dependsOn ==> d in Names(entries) || d == e.cfg.name
  {
    var all := entries + [e];
    assert e in all;
    assert forall n :: n in Names(all) <==> n in Names(entries) || n == e.cfg.name;
  }

  function Digits(n: nat): string {
    if n < 10 then [('0' as int + n) as char] else Digits(n / 10) + [('0' as int + n % 10) as char]
  }

  function AutoName(seqNo: nat): string {
    "$" + Digits(seqNo)
  }

  /** What a decimal numeral stands for. */
  function Value(digits: string): int {
    if digits == [] then 0
    else Value(digits[..|digits| - 1]) * 10 + (digits[|digits| - 1] as int - '0' as int)
  }

  /** Digits writes the number in decimal, without a leading zero. */
  lemma {:induction false} DigitsValue(n: nat)
    ensures Value(Digits(n)) == n && |Digits(n)| > 0 && (n > 0 ==> Digits(n)[0] != '0')
    ensures forall k :: 0 <= k < |Digits(n)| ==> '0' <= Digits(n)[k] <= '9'
  {
    if n >= 10 {
      DigitsValue(n / 10);
      var d := Digits(n);
      assert d[..|d| - 1] == Digits(n / 10);
    }
  }

  /** Automatic names are told apart by their numbers. */
  lemma AutoNameInjective(m: nat, n: nat)
    requires AutoName(m) == AutoName(n)
    ensures m == n
  {
    assert AutoName(m)[1..] == Digits(m) && AutoName(n)[1..] == Digits(n);
    DigitsValue(m);
    DigitsValue(n);
  }

  /** The name looks like an automatic one. */
  predicate Dollar(name: string) {
    name != [] && name[0] == '$'
  }

  lemma AutoNameIsDollar(n: nat)
    ensures Dollar(AutoName(n))
  {
  }

  /** Every name that looks automatic was given to one of the numbers drawn so far. */
  ghost predicate Drawn(names: set<string>, autoSeq: nat) {
    forall n :: n in names && Dollar(n) ==> exists k :: 0 <= k <= autoSeq && n == AutoName(k)
  }

  /** The next automatic name is free. */
  lemma NextIsFree(names: set<string>, autoSeq: nat)
    requires Drawn(names, autoSeq)
    ensures AutoName(autoSeq + 1) !in names
  {
    if AutoName(autoSeq + 1) in names {
      var k :| 0 <= k <= autoSeq && AutoName(autoSeq + 1) == AutoName(k);
      AutoNameInjective(autoSeq + 1, k);
    }
  }

  /** The names of a registry and the numbers it has drawn; pending are the numbers of unnamed hot adds that are
      validated and not committed yet. */
  datatype Naming = Naming(names: set<string>, autoSeq: nat, pending: set<nat>)

  /** One step of a registration or a removal, as it changes the names: a validation draws a number whether or
      not it needs it; a registration gives its automatic name at once, a hot add when it is committed; a
      service with a name of its own comes in under it. */
  ghost predicate NamingStep(s: Naming, t: Naming) {
    || t == s.(autoSeq := s.autoSeq + 1)
    || t == s.(autoSeq := s.autoSeq + 1, names := s.names + {AutoName(s.autoSeq + 1)})
    || t == s.(autoSeq := s.autoSeq + 1, pending := s.pending + {s.autoSeq + 1})
    || (exists k :: k in s.pending && t == s.(names := s.names + {AutoName(k)}, pending := s.pending - {k}))
    || (exists n :: !Dollar(n) && t == s.(names := s.names + {n}))
    || (exists n :: t == s.(names := s.names - {n}))
  }

  ghost predicate NamingRun(run: seq<Naming>) {
    && |run| > 0 && run[0] == Naming({}, 0, {})
    && forall i {:trigger run[i]} :: 0 <= i < |run| - 1 ==> NamingStep(run[i], run[i + 1])
  }

  /** As long as nobody registers a name that starts with a dollar, no unnamed service ever meets its name in the
      registry: neither when it is validated nor, for a hot add, when it is committed. */
  lemma {:induction false} UnnamedNeverCollides(run: seq<Naming>, k: nat)
    requires NamingRun(run) && k < |run|
    ensures Drawn(run[k].names, run[k].autoSeq) && AutoName(run[k].autoSeq + 1) !in run[k].names
    ensures forall p :: p in run[k].pending ==> p <= run[k].autoSeq && AutoName(p) !in run[k].names
  {
    hide AutoName;
    if k > 0 {
      UnnamedNeverCollides(run, k - 1);
      assert NamingStep(run[k - 1], run[k]);
      NamingStays(run[k - 1], run[k]);
    }
    NextIsFree(run[k].names, run[k].autoSeq);
  }

  lemma NamingStays(s: Naming, t: Naming)
    requires NamingStep(s, t) && Drawn(s.names, s.autoSeq)
    requires forall p :: p in s.pending ==> p <= s.autoSeq && AutoName(p) !in s.names
    ensures Drawn(t.names, t.autoSeq)
    ensures forall p :: p in t.pending ==> p <= t.autoSeq && AutoName(p) !in t.names
  {
    hide AutoName;
    NextIsFree(s.names, s.autoSeq);
    forall n | n in t.names && Dollar(n) ensures exists k :: 0 <= k <= t.autoSeq && n == AutoName(k) {
      if n in s.names { var k :| 0 <= k <= s.autoSeq && n == AutoName(k); }
    }
    forall p | p in t.pending ensures p <= t.autoSeq && AutoName(p) !in t.names {
      forall q | AutoName(q) == AutoName(p) ensures q == p { AutoNameInjective(q, p); }
      AutoNameIsDollar(p);
    }
  }

  class Orchestrator {
    var entries: seq<ServiceEntry>
    var nameIndex: map<string, ServiceEntry>
    var autoSeq: nat
    var started: bool
    var stopping: bool
    var stopped: bool
    /** The cron grammar of the scheduling library. */
    const cronParses: string -> bool

    /** The index and the slice describe the same uniquely named entries. */
    ghost predicate IndexValid()
      reads this
    {
      && UniqueNames(entries)
      && nameIndex.Keys == Names(entries)
      && forall e :: e in entries ==> nameIndex[e.cfg.name] == e
    }

    ghost predicate Valid()
      reads this
    {
      IndexValid() && Acyclic(DepGraph(entries))
    }

    ghost function RemovingNames(): set<string>
      reads this, entries
    {
      set e | e in entries && e.removing :: e.cfg.name
    }

    constructor (cronParses: string -> bool)
      ensures Valid() && entries == [] && autoSeq == 0 && !started && !stopping && !stopped
      ensures this.cronParses == cronParses
    {
      entries, nameIndex, autoSeq := [], map[], 0;
      started, stopping, stopped := false, false, false;
      this.cronParses := cronParses;
      new;
      RankAcyclic(DepGraph(entries), map[]);
    }

    /** The index first, then the slice; the index need not be complete for this. */
    method LookupEntry(name: string) returns (found: ServiceEntry?)
      requires forall n :: n in nameIndex ==> nameIndex[n] in entries && nameIndex[n].cfg.name == n
      ensures found == null <==> name !in Names(entries)
      ensures found != null ==> found in entries && found.cfg.name == name
    {
      if name in nameIndex { return nameIndex[name]; }
      for i := 0 to |entries|
        invariant forall k :: 0 <= k < i ==> entries[k].cfg.name != name
      {
        if entries[i].cfg.name == name { return entries[i]; }
      }
      return null;
    }

    /** Whether entry transitively depends on target, expanding each node at most once. The walk
        is cut at visited nodes, open ones included, and gives up below MAX_DEPENDENCY_DEPTH. */
    method DependsOnRecursive(entry: ServiceEntry?, target: string, visited: NameSet, depth: nat,
        ghost walk: seq<string>)
      returns (found: bool, tooDeep: bool, ghost deepWalk: seq<string>)
      requires IndexValid() && (entry != null ==> entry in entries)
      requires |walk| == depth <= MAX_DEPENDENCY_DEPTH + 1 && OpenWalk(DepGraph(entries), walk, visited.names)
      requires entry != null && depth > 0 ==> Edge(DepGraph(entries), walk[depth - 1], entry.cfg.name)
      modifies visited
      ensures old(visited.names) <= visited.names
      ensures tooDeep ==> !found && TooDeepWalk(DepGraph(entries), deepWalk)
      ensures found ==> entry != null && Reaches(DepGraph(entries), entry.cfg.name, target)
      ensures !found && !tooDeep ==>
                && (entry != null ==> entry.cfg.name in visited.names)
                && Explored(DepGraph(entries), old(visited.names), visited.names, target)
      decreases Names(entries) - visited.names, 0
    {
      hide Reaches, Acyclic;
      deepWalk := walk;
      if entry == null { return false, false, walk; }
      if depth > MAX_DEPENDENCY_DEPTH { return false, true, walk; }
      ghost var before := visited.names;
      if entry.cfg.name in visited.names { return false, false, walk; }
      visited.names := visited.names + {entry.cfg.name};
      ghost var open := walk + [entry.cfg.name];
      ExtendWalk(DepGraph(entries), walk, entry.cfg.name);
      found, tooDeep, deepWalk := DependsOnAny(entry, entry.cfg.dependsOn, target, visited, depth, open);
      if found || tooDeep { return; }
      ghost var mid := visited.names;
      found, tooDeep, deepWalk := DependsOnAny(entry, entry.cfg.softDependsOn, target, visited, depth, open);
      if !found && !tooDeep { ExploredNode(entries, entry, before, mid, visited.names, target); }
    }

    /** One of the two dependency loops of DependsOnRecursive. */
    method DependsOnAny(entry: ServiceEntry, deps: seq<string>, target: string, visited: NameSet, depth: nat,
        ghost open: seq<string>)
      returns (found: bool, tooDeep: bool, ghost deepWalk: seq<string>)
      requires IndexValid() && entry in entries && entry.cfg.name in visited.names
      requires forall d :: d in deps ==> d in AllDeps(entry.cfg)
      requires depth <= MAX_DEPENDENCY_DEPTH && |open| == depth + 1 && open[depth] == entry.cfg.name
      requires OpenWalk(DepGraph(entries), open, visited.names)
      modifies visited
      ensures old(visited.names) <= visited.names
      ensures tooDeep ==> !found && TooDeepWalk(DepGraph(entries), deepWalk)
      ensures found ==> Reaches(DepGraph(entries), entry.cfg.name, target)
      ensures !found && !tooDeep ==>
                && Explored(DepGraph(entries), old(visited.names), visited.names, target)
                && forall d :: d in deps ==> d != target && (d in Names(entries) ==> d in visited.names)
      decreases Names(entries) - visited.names, 1, |deps|
    {
      found, tooDeep, deepWalk := false, false, open;
      for i := 0 to |deps|
        invariant !found && !tooDeep && old(visited.names) <= visited.names
        invariant Explored(DepGraph(entries), old(visited.names), visited.names, target)
        invariant forall k :: 0 <= k < i ==>
            deps[k] != target && (deps[k] in Names(entries) ==> deps[k] in visited.names)
      {
        assert Edge(DepGraph(entries), entry.cfg.name, deps[i]);
        EdgeReaches(DepGraph(entries), entry.cfg.name, deps[i]);
        if deps[i] == target { return true, false, open; }
        var next := LookupEntry(deps[i]);
        found, tooDeep, deepWalk := DependsOnRecursive(next, target, visited, depth + 1, open);
        if found {
          ReachesTrans(DepGraph(entries), entry.cfg.name, deps[i], target);
          return;
        }
        if tooDeep { return; }
      }
    }

    /** The structural checks of a registration, in the order the first fault is reported. */
    method ValidateRegisterConfig(cfg: RegisterConfig) returns (r: Result<RegisterConfig>)
      requires IndexValid()
      modifies this`autoSeq
      ensures autoSeq == old(autoSeq) + (if r == Failure(UnsupportedOption) || r == Failure(InvalidCron) then 0 else 1)
      ensures r == Failure(DependencyDepthExceeded) ==> |entries| > MAX_DEPENDENCY_DEPTH
      ensures r != Failure(DependencyDepthExceeded) ==> r == old(Verdict(cfg, autoSeq + 1))
      ensures r.Success? ==> Admissible(entries, old(RemovingNames()), r.value)
      ensures r == Failure(DependencyNotFound) ==> exists d :: d in cfg.dependsOn && d !in Names(entries)
      ensures r == Failure(DependencyRemoving) ==> exists d :: d in cfg.dependsOn && d in old(RemovingNames())
      // An unnamed service is no duplicate, as long as names with a dollar are left to automatic naming.
      ensures cfg.name == "" && Drawn(Names(entries), old(autoSeq)) ==> r != Failure(DuplicateName)
    {
      hide DepGraph, Admissible, FirstFault, UniqueNames, Drawn, AutoName;
      if cfg.factory && (cfg.cronSpec != "" || cfg.runOnce) { return Failure(UnsupportedOption); }
      if cfg.cronSet && !cronParses(cfg.cronSpec) { return Failure(InvalidCron); }
      autoSeq := autoSeq + 1;
      var named := Named(cfg, autoSeq);
      if Drawn(Names(entries), old(autoSeq)) { NextIsFree(Names(entries), old(autoSeq)); }
      if named.name in nameIndex { return Failure(DuplicateName); }
      ghost var removing := old(RemovingNames());
      assert removing == RemovingNames();
      FirstFaultHard(DepGraph(entries), removing, named.name, named.dependsOn, named.softDependsOn);
      FaultFree(entries, removing, named);
      FaultNamed(entries, removing, named);
      var fault := CheckHard(named.name, named.dependsOn);
      if fault.Some? { return Failure(fault.value); }
      fault := CheckSoft(named.name, named.softDependsOn);
      if fault.Some? { return Failure(fault.value); }
      return Success(named);
    }

    method CheckHard(name: string, deps: seq<string>) returns (fault: Option<RegisterError>)
      requires IndexValid()
      ensures fault == Some(DependencyDepthExceeded) ==> |entries| > MAX_DEPENDENCY_DEPTH
      ensures fault != Some(DependencyDepthExceeded) ==>
          fault == FirstFault(DepGraph(entries), RemovingNames(), name, deps, [])
    {
      ghost var g, removing := DepGraph(entries), RemovingNames();
      for i := 0 to |deps|
        invariant FirstFault(g, removing, name, deps[i..], []) == FirstFault(g, removing, name, deps, [])
      {
        var dep := deps[i];
        assert deps[i..][1..] == deps[i + 1..];
        if dep == name { return Some(DependencyCycle); }
        var depEntry := LookupEntry(dep);
        if depEntry == null { return Some(DependencyNotFound); }
        if depEntry.removing { return Some(DependencyRemoving); }
        var found, tooDeep := DependsOn(depEntry, name);
        if tooDeep { return Some(DependencyDepthExceeded); }
        if found { return Some(DependencyCycle); }
      }
      return None;
    }

    method CheckSoft(name: string, deps: seq<string>) returns (fault: Option<RegisterError>)
      requires IndexValid()
      ensures fault == Some(DependencyDepthExceeded) ==> |entries| > MAX_DEPENDENCY_DEPTH
      ensures fault != Some(DependencyDepthExceeded) ==>
          fault == FirstFault(DepGraph(entries), RemovingNames(), name, [], deps)
    {
      ghost var g, removing := DepGraph(entries), RemovingNames();
      for i := 0 to |deps|
        invariant FirstFault(g, removing, name, [], deps[i..]) == FirstFault(g, removing, name, [], deps)
      {
        var dep := deps[i];
        assert deps[i..][1..] == deps[i + 1..];
        if dep == name { return Some(DependencyCycle); }
        var depEntry := LookupEntry(dep);
        if depEntry == null { continue; }
        var found, tooDeep := DependsOn(depEntry, name);
        if tooDeep { return Some(DependencyDepthExceeded); }
        if found { return Some(DependencyCycle); }
      }
      return None;
    }

    /** A top-level cycle check: a fresh visited map at depth 0. */
    method DependsOn(entry: ServiceEntry, target: string) returns (found: bool, tooDeep: bool)
      requires IndexValid() && entry in entries
      ensures tooDeep ==> !found && |entries| > MAX_DEPENDENCY_DEPTH
      ensures !tooDeep ==> (found <==> Reaches(DepGraph(entries), entry.cfg.name, target))
    {
      var visited := new NameSet();
      ghost var walk;
      found, tooDeep, walk := DependsOnRecursive(entry, target, visited, 0, []);
      if tooDeep {
        TooDeepNeedsEntries(entries, walk);
      } else if !found {
        ClosedExcludes(DepGraph(entries), visited.names, entry.cfg.name, target);
      }
    }

    function Named(cfg: RegisterConfig, seqNo: nat): RegisterConfig {
      if cfg.name == "" then cfg.(name := AutoName(seqNo)) else cfg
    }

    /** What validation must answer, by reachability instead of search. */
    ghost function Verdict(cfg: RegisterConfig, seqNo: nat): Result<RegisterConfig>
      requires UniqueNames(entries)
      reads this, entries
    {
      var named := Named(cfg, seqNo);
      if cfg.factory && (cfg.cronSpec != "" || cfg.runOnce) then Failure(UnsupportedOption)
      else if cfg.cronSet && !cronParses(cfg.cronSpec) then Failure(InvalidCron)
      else if named.name in Names(entries) then Failure(DuplicateName)
      else
        match FirstFault(DepGraph(entries), RemovingNames(), named.name, named.dependsOn, named.softDependsOn)
        case Some(error) => Failure(error)
        case None => Success(named)
    }

    function MembershipGate(): (gate: Option<RegisterError>)
      reads this
      ensures gate == Some(OrchestratorStopping) <==> stopping
      ensures gate == Some(OrchestratorStopped) <==> !stopping && stopped
      ensures gate.None? <==> !stopping && !stopped
    {
      if stopping then Some(OrchestratorStopping) else if stopped then Some(OrchestratorStopped) else None
    }

    method Append(cfg: RegisterConfig) returns (e: ServiceEntry)
      requires IndexValid() && cfg.name !in Names(entries)
      modifies this`entries, this`nameIndex
      ensures IndexValid() && fresh(e) && e.cfg == cfg && e.status == Registered && !e.removing && !e.removed
      ensures !e.starting
      ensures entries == old(entries) + [e]
      ensures DepGraph(entries) == old(DepGraph(entries))[cfg.name := AllDeps(cfg)]
      ensures old(Valid()) ==> (Valid() <==> ClosesNoCycle(old(DepGraph(entries)), cfg))
    {
      e := new ServiceEntry(cfg);
      AppendGraph(entries, e);
      if Acyclic(DepGraph(entries)) { InsertAcyclic(DepGraph(entries), cfg.name, AllDeps(cfg)); }
      entries := entries + [e];
      nameIndex := nameIndex[cfg.name := e];
    }

    /** Register without a user validator before Start: one critical section. */
    method Register(cfg: RegisterConfig) returns (r: Result<ServiceEntry>)
      requires Valid()
      modifies this`entries, this`nameIndex, this`autoSeq
      ensures Valid()
      ensures r.Failure? ==> entries == old(entries) && nameIndex == old(nameIndex)
      ensures r.Success? ==> entries == old(entries) + [r.value] && fresh(r.value)
      ensures r.Success? ==> r.value.cfg == old(Named(cfg, autoSeq + 1))
      ensures r.Success? ==> Admissible(old(entries), old(RemovingNames()), r.value.cfg)
      ensures r == Failure(DependencyDepthExceeded) ==> |entries| > MAX_DEPENDENCY_DEPTH
      ensures r != Failure(DependencyDepthExceeded) ==>
                match old(Verdict(cfg, autoSeq + 1))
                case Failure(error) => r == Failure(error)
                case Success(_) => r.Success?
      ensures old(Drawn(Names(entries), autoSeq)) && cfg.name == "" ==> r != Failure(DuplicateName)
      ensures old(Drawn(Names(entries), autoSeq)) && !Dollar(cfg.name) ==> Drawn(Names(entries), autoSeq)
    {
      var checked := ValidateRegisterConfig(cfg);
      if checked.Failure? { return Failure(checked.error); }
      var e := Append(checked.value);
      return Success(e);
    }

    /** The first half of a hot add: refused during or after shutdown, else validated under the lock. */
    method ValidateDynamic(cfg: RegisterConfig) returns (r: Result<RegisterConfig>)
      requires Valid()
      modifies this`autoSeq
      ensures MembershipGate().Some? ==> r == Failure(MembershipGate().value) && autoSeq == old(autoSeq)
      ensures MembershipGate().None? && r != Failure(DependencyDepthExceeded) ==> r == old(Verdict(cfg, autoSeq + 1))
      ensures r.Success? ==> Admissible(entries, RemovingNames(), r.value)
      ensures r == Failure(DependencyDepthExceeded) ==> |entries| > MAX_DEPENDENCY_DEPTH
    {
      if MembershipGate().Some? { return Failure(MembershipGate().value); }
      r := ValidateRegisterConfig(cfg);
      assert RemovingNames() == old(RemovingNames());
    }

    /** The second half of a hot add: the lock was released after validation, and only the
        shutdown gate and the name are checked again. The registry stays acyclic exactly when the
        configuration closes no cycle now, and keeps its hard dependencies registered exactly when
        those of the configuration are registered now. */
    method CommitDynamic(cfg: RegisterConfig) returns (r: Result<ServiceEntry>)
      requires Valid()
      modifies this`entries, this`nameIndex
      ensures IndexValid()
      ensures r.Failure? ==> entries == old(entries) && nameIndex == old(nameIndex)
      ensures r.Failure? <==> stopping || stopped || cfg.name in old(Names(entries))
      ensures r == Failure(OrchestratorStopping) <==> stopping
      ensures r == Failure(OrchestratorStopped) <==> !stopping && stopped
      ensures r.Success? ==>
          entries == old(entries) + [r.value] && r.value.cfg == cfg && fresh(r.value) && !r.value.removing
      ensures r.Failure? && !stopping && !stopped ==> r == Failure(DuplicateName)
      ensures r.Success? ==> (Valid() <==> ClosesNoCycle(old(DepGraph(entries)), cfg))
      ensures Admissible(old(entries), old(RemovingNames()), cfg) ==> Valid()
      ensures r.Success? && HardDepsRegistered(old(entries)) ==>
                (HardDepsRegistered(entries) <==>
                    forall d :: d in cfg.dependsOn ==> d in old(Names(entries)) || d == cfg.name)
    {
      var gate := MembershipGate();
      if gate.Some? { return Failure(gate.value); }
      if cfg.name in nameIndex { return Failure(DuplicateName); }
      var e := Append(cfg);
      if HardDepsRegistered(old(entries)) { AppendKeepsHardDeps(old(entries), e); }
      return Success(e);
    }

    /** Drop an entry for good: the index, the slice and its per-instance state. */
    method RemoveEntry(e: ServiceEntry)
      requires Valid() && e in entries
      modifies this`entries, this`nameIndex, e`removed, e`status, e`startGoid, e`stopGoid
      ensures Valid() && entries == Without(old(entries), e) && nameIndex == old(nameIndex) - {e.cfg.name}
      ensures DepGraph(entries) == old(DepGraph(entries)) - {e.cfg.name}
      ensures e.removed && e.status == Registered && e.startGoid == 0 && e.stopGoid == 0
      ensures forall f :: f in entries <==> f in old(entries) && f != e
    {
      e.removed := true;
      e.status, e.startGoid, e.stopGoid := Registered, 0, 0;
      nameIndex := nameIndex - {e.cfg.name};
      WithoutKeeps(entries, e);
      WithoutGraph(entries, e);
      entries := FilterOut(entries, e);
    }
  }

  /** One atomic registration or removal, as it changes the dependency graph. */
  ghost predicate GraphStep(g: Graph, h: Graph) {
    || (exists cfg: RegisterConfig :: cfg.name !in g && ClosesNoCycle(g, cfg) && h == g[cfg.name := AllDeps(cfg)])
    || (exists n :: h == g - {n})
  }

  ghost predicate GraphRun(run: seq<Graph>) {
    |run| > 0 && run[0] == map[] && forall i {:trigger run[i]} :: 0 <= i < |run| - 1 ==> GraphStep(run[i], run[i + 1])
  }

  /** However registrations and removals follow each other, no cycle ever appears: not even when
      a registration gives a target to edges that dangled before it. */
  lemma {:induction false} RunsStayAcyclic(run: seq<Graph>, k: nat)
    requires GraphRun(run) && k < |run|
    ensures Acyclic(run[k])
  {
    if k == 0 {
      RankAcyclic(run[0], map[]);
    } else {
      RunsStayAcyclic(run, k - 1);
      var g, h := run[k - 1], run[k];
      assert GraphStep(g, h);
      if cfg: RegisterConfig :| cfg.name !in g && ClosesNoCycle(g, cfg) && h == g[cfg.name := AllDeps(cfg)] {
        InsertAcyclic(g, cfg.name, AllDeps(cfg));
      } else {
        assert Subgraph(h, g);
        SubgraphAcyclic(h, g);
      }
    }
  }

  /** The gap of a hot add matters: two services that softly depend on each other are both accepted against
      the empty registry, and committing both leaves a cycle. */
  method HotAddGapClosesCycle(o: Orchestrator, a: RegisterConfig, b: RegisterConfig)
    requires o.Valid() && o.entries == [] && !o.stopping && !o.stopped
    requires a == RegisterConfig("a", [], ["b"], "", "", false, false, false)
    requires b == RegisterConfig("b", [], ["a"], "", "", false, false, false)
    modifies o
    ensures |o.entries| == 2 && o.entries[0].cfg == a && o.entries[1].cfg == b && UniqueNames(o.entries)
    ensures !Acyclic(DepGraph(o.entries))
  {
    hide Acyclic, Reaches, DepGraph;
    SoftPairIsAdmissible(a, b);
    var first := o.ValidateDynamic(a);
    var second := o.ValidateDynamic(b);
    assert first == Success(a) && second == Success(b);
    var added := o.CommitDynamic(first.value);
    var again := o.CommitDynamic(second.value);
    PairIsCyclic(o.entries, a, b);
  }

  /** Each of the two is admissible on its own. */
  lemma SoftPairIsAdmissible(a: RegisterConfig, b: RegisterConfig)
    requires a.name == "a" && a.dependsOn == [] && a.softDependsOn == ["b"]
    requires b.name == "b" && b.dependsOn == [] && b.softDependsOn == ["a"]
    ensures Admissible([], {}, a) && FirstFault(DepGraph([]), {}, a.name, a.dependsOn, a.softDependsOn).None?
    ensures Admissible([], {}, b) && FirstFault(DepGraph([]), {}, b.name, b.dependsOn, b.softDependsOn).None?
  {
    FaultFree([], {}, a);
    FaultFree([], {}, b);
    assert [] + a.softDependsOn == ["b"] && [] + b.softDependsOn == ["a"];
  }

  lemma PairIsCyclic(entries: seq<ServiceEntry>, a: RegisterConfig, b: RegisterConfig)
    requires |entries| == 2 && UniqueNames(entries) && entries[0].cfg == a && entries[1].cfg == b
    requires a.name == "a" && a.softDependsOn == ["b"] && b.name == "b" && b.softDependsOn == ["a"]
    ensures !Acyclic(DepGraph(entries))
  {
    var g := DepGraph(entries);
    GraphAt(entries, entries[0]);
    GraphAt(entries, entries[1]);
    assert "b" in AllDeps(a) by { assert (a.dependsOn + a.softDependsOn)[|a.dependsOn|] == "b"; }
    assert "a" in AllDeps(b) by { assert (b.dependsOn + b.softDependsOn)[|b.dependsOn|] == "a"; }
    EdgeReaches(g, "a", "b");
    EdgeReaches(g, "b", "a");
    ReachesTrans(g, "a", "b", "a");
  }

  /** And a service that was validated against a registry with its hard dependency is committed although the
      dependency has been removed in between. */
  method HotAddGapMissesRemoval(o: Orchestrator, a: RegisterConfig, b: RegisterConfig)
    requires o.Valid() && o.entries == [] && !o.stopping && !o.stopped
    requires a == RegisterConfig("a", [], [], "", "", false, false, false)
    requires b == RegisterConfig("b", ["a"], [], "", "", false, false, false)
    modifies o
    ensures o.Valid() && |o.entries| == 1 && o.entries[0].cfg == b && !HardDepsRegistered(o.entries)
  {
    hide Acyclic, Reaches, FirstFault, DepGraph;
    var e := AddsAlone(o, a);
    var checked := ValidatesDependent(o, e, b);
    o.RemoveEntry(e);
    assert o.entries == [];
    NothingCloses(o.entries, b);
    var added := o.CommitDynamic(checked);
    assert o.entries == [added.value] && o.entries[0].cfg == b;
    MissesDependency(o.entries, b);
  }

  lemma NothingCloses(entries: seq<ServiceEntry>, b: RegisterConfig)
    requires entries == [] && b.name == "b" && AllDeps(b) == {"a"}
    ensures ClosesNoCycle(DepGraph(entries), b)
  {
    SinkReachesNothing(DepGraph(entries), "a", "b");
  }

  lemma MissesDependency(entries: seq<ServiceEntry>, b: RegisterConfig)
    requires |entries| == 1 && entries[0].cfg == b && b.name == "b" && b.dependsOn == ["a"]
    ensures !HardDepsRegistered(entries)
  {
    assert entries[0] in entries && b.dependsOn[0] in b.dependsOn;
    assert "a" !in Names(entries);
  }

  method ValidatesDependent(o: Orchestrator, e: ServiceEntry, b: RegisterConfig) returns (checked: RegisterConfig)
    requires o.Valid() && o.entries == [e] && !e.removing && !o.stopping && !o.stopped
    requires e.cfg.name == "a" && AllDeps(e.cfg) == {}
    requires b == RegisterConfig("b", ["a"], [], "", "", false, false, false)
    modifies o`autoSeq
    ensures o.Valid() && checked == b && AllDeps(b) == {"a"}
  {
    hide Acyclic, Reaches, FirstFault;
    DependentIsAdmissible(o.entries, b);
    assert o.RemovingNames() == {};
    var verdict := o.ValidateDynamic(b);
    assert verdict == Success(b);
    return verdict.value;
  }

  method AddsAlone(o: Orchestrator, a: RegisterConfig) returns (e: ServiceEntry)
    requires o.Valid() && o.entries == [] && !o.stopping && !o.stopped
    requires a == RegisterConfig("a", [], [], "", "", false, false, false)
    modifies o
    ensures o.Valid() && o.entries == [e] && e.cfg == a && AllDeps(a) == {} && !e.removing && fresh(e) && !o.stopping
    ensures !o.stopped
  {
    hide Acyclic, Reaches;
    SingleIsAdmissible(a);
    var checked := o.ValidateDynamic(a);
    assert checked == Success(a);
    var added := o.CommitDynamic(a);
    e := added.value;
  }

  lemma SingleIsAdmissible(a: RegisterConfig)
    requires a.dependsOn == [] && a.softDependsOn == []
    ensures Admissible([], {}, a) && FirstFault(DepGraph([]), {}, a.name, a.dependsOn, a.softDependsOn).None?
  {
    FaultFree([], {}, a);
    assert AllDeps(a) == {};
  }

  lemma DependentIsAdmissible(entries: seq<ServiceEntry>, b: RegisterConfig)
    requires |entries| == 1 && entries[0].cfg.name == "a" && AllDeps(entries[0].cfg) == {}
    requires b.name == "b" && b.dependsOn == ["a"] && b.softDependsOn == []
    ensures Admissible(entries, {}, b) && FirstFault(DepGraph(entries), {}, b.name, b.dependsOn, b.softDependsOn).None?
    ensures AllDeps(b) == {"a"}
  {
    FaultFree(entries, {}, b);
    assert AllDeps(b) == {"a"};
    assert entries[0] in entries;
    SinkReachesNothing(DepGraph(entries), "a", "b");
  }

  lemma SinkReachesNothing(g: Graph, a: string, b: string)
    requires a in g ==> g[a] == {}
    ensures !Reaches(g, a, b)
  {
  }
}
