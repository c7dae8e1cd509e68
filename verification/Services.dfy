/** Registered services and the dependency graphs they induce. */
module Services {
  import opened Digraph

  datatype Status = Registered | Starting | Running | Stopping | Stopped | Succeeded | Crashed

  /** The registration-time part of a service; it never changes afterwards. */
  datatype RegisterConfig = RegisterConfig(
    name: string,
    dependsOn: seq<string>,
    softDependsOn: seq<string>,
    group: string,
    cronSpec: string,
    cronSet: bool,
    runOnce: bool,
    factory: bool)

  class ServiceEntry {
    const cfg: RegisterConfig
    var status: Status
    var starting: bool
    var removing: bool
    var removed: bool
    /** Thread currently inside this entry's own Start or Stop, 0 for none. */
    var startGoid: nat
    var stopGoid: nat

    constructor (cfg: RegisterConfig)
      ensures this.cfg == cfg && status == Registered
      ensures !starting && !removing && !removed && startGoid == 0 && stopGoid == 0
    {
      this.cfg := cfg;
      status := Registered;
      starting, removing, removed := false, false, false;
      startGoid, stopGoid := 0, 0;
    }

    predicate LifecycleOwnedBy(goid: nat)
      reads this
    {
      goid != 0 && (startGoid == goid || stopGoid == goid)
    }

    predicate Active()
      reads this
    {
      status == Running || status == Starting
    }
  }

  function HardDeps(cfg: RegisterConfig): set<string> {
    set d | d in cfg.dependsOn
  }

  function AllDeps(cfg: RegisterConfig): set<string> {
    set d | d in cfg.dependsOn + cfg.softDependsOn
  }

  function Names(entries: seq<ServiceEntry>): set<string> {
    set e | e in entries :: e.cfg.name
  }

  function NameSeq(entries: seq<ServiceEntry>): (names: seq<string>)
    ensures |names| == |entries|
    ensures forall i :: 0 <= i < |entries| ==> names[i] == entries[i].cfg.name
  {
    seq(|entries|, i requires 0 <= i < |entries| => entries[i].cfg.name)
  }

  predicate UniqueNames(entries: seq<ServiceEntry>) {
    forall i, j :: 0 <= i < j < |entries| ==> entries[i].cfg.name != entries[j].cfg.name
  }

  /** Hard and soft edges over the registered names. */
  function DepGraph(entries: seq<ServiceEntry>): Graph
    requires UniqueNames(entries)
  {
    map e | e in entries :: e.cfg.name := AllDeps(e.cfg)
  }

  /** Hard edges only. */
  function HardGraph(entries: seq<ServiceEntry>): Graph
    requires UniqueNames(entries)
  {
    map e | e in entries :: e.cfg.name := HardDeps(e.cfg)
  }

  /** Every hard dependency of a registered entry is itself registered. */
  ghost predicate HardDepsRegistered(entries: seq<ServiceEntry>) {
    forall e, d :: e in entries && d in e.cfg.dependsOn ==> d in Names(entries)
  }

  /** Whoever transitively depends on a member of the order comes before it. */
  ghost predicate DependentBeforeDependency(g: Graph, order: seq<ServiceEntry>) {
    forall i, j :: 0 <= i < |order| && 0 <= j < |order| && Reaches(g, order[i].cfg.name, order[j].cfg.name) ==> i < j
  }

  lemma SameNameSameEntry(entries: seq<ServiceEntry>, e: ServiceEntry, f: ServiceEntry)
    requires UniqueNames(entries) && e in entries && f in entries && e.cfg.name == f.cfg.name
    ensures e == f
  {
  }

  lemma NodeOf(entries: seq<ServiceEntry>, n: string) returns (e: ServiceEntry)
    requires n in Names(entries)
    ensures e in entries && e.cfg.name == n
  {
    e :| e in entries && e.cfg.name == n;
  }

  lemma GraphAt(entries: seq<ServiceEntry>, e: ServiceEntry)
    requires UniqueNames(entries) && e in entries
    ensures e.cfg.name in DepGraph(entries) && DepGraph(entries)[e.cfg.name] == AllDeps(e.cfg)
  {
  }

  lemma GraphNodes(entries: seq<ServiceEntry>)
    requires UniqueNames(entries)
    ensures DepGraph(entries).Keys == Names(entries)
  {
  }

  lemma AppendGraph(entries: seq<ServiceEntry>, e: ServiceEntry)
    requires UniqueNames(entries) && e.cfg.name !in Names(entries)
    ensures UniqueNames(entries + [e])
    ensures Names(entries + [e]) == Names(entries) + {e.cfg.name}
    ensures DepGraph(entries + [e]) == DepGraph(entries)[e.cfg.name := AllDeps(e.cfg)]
  {
    AppendUnique(entries, e);
  }

  /** Edges of a sublist of the registry are edges of the registry. */
  lemma SublistGraph(part: seq<ServiceEntry>, entries: seq<ServiceEntry>)
    requires UniqueNames(part) && UniqueNames(entries)
    requires forall e :: e in part ==> e in entries
    ensures Subgraph(DepGraph(part), DepGraph(entries))
    ensures Subgraph(HardGraph(part), DepGraph(part))
  {
    forall a, b | Edge(DepGraph(part), a, b) ensures Edge(DepGraph(entries), a, b) {
      var e :| e in part && e.cfg.name == a;
      assert e in entries;
    }
  }

  lemma NamesSplit(entries: seq<ServiceEntry>)
    requires entries != []
    ensures var front, last := entries[..|entries| - 1], entries[|entries| - 1];
            && Names(entries) == Names(front) + {last.cfg.name}
            && (UniqueNames(entries) <==> UniqueNames(front) && last.cfg.name !in Names(front))
  {
    var front, last := entries[..|entries| - 1], entries[|entries| - 1];
    assert entries == front + [last];
    if UniqueNames(front) && last.cfg.name !in Names(front) {
      AppendUnique(front, last);
    }
    if UniqueNames(entries) {
      assert forall i :: 0 <= i < |front| ==> front[i] == entries[i];
    }
  }

  lemma AppendUnique(entries: seq<ServiceEntry>, e: ServiceEntry)
    requires UniqueNames(entries) && e.cfg.name !in Names(entries)
    ensures UniqueNames(entries + [e])
  {
    forall i | 0 <= i < |entries| ensures entries[i].cfg.name != e.cfg.name {
      assert entries[i] in entries;
    }
  }

  lemma {:induction false} NamesCount(entries: seq<ServiceEntry>)
    ensures |Names(entries)| <= |entries|
    ensures UniqueNames(entries) <==> |Names(entries)| == |entries|
  {
    if entries != [] {
      NamesSplit(entries);
      NamesCount(entries[..|entries| - 1]);
    }
  }
}
