/** The two passes of a whole Stop over the registry: the persistent services in reverse dependency order, then
    all others. */
module StopPasses {
  import opened Digraph
  import opened Services
  import opened Levelling

  predicate Persists(cfg: RegisterConfig) {
    cfg.cronSpec == "" && !cfg.runOnce
  }

  predicate Passes(cfg: RegisterConfig) {
    cfg.runOnce || cfg.cronSpec != ""
  }

  /** The entries of one pass, in registration order. */
  function Chosen(entries: seq<ServiceEntry>, persistent: bool): (r: seq<ServiceEntry>)
    ensures forall e :: e in r ==> e in entries && Persists(e.cfg) == persistent
    ensures forall e :: e in entries && Persists(e.cfg) == persistent ==> e in r
  {
    if entries == [] then []
    else
      var front, last := Chosen(entries[..|entries| - 1], persistent), entries[|entries| - 1];
      assert entries == entries[..|entries| - 1] + [last];
      if Persists(last.cfg) == persistent then front + [last] else front
  }

  lemma {:induction false} ChosenUnique(entries: seq<ServiceEntry>, persistent: bool)
    requires UniqueNames(entries)
    ensures UniqueNames(Chosen(entries, persistent))
  {
    if entries != [] {
      var front := entries[..|entries| - 1];
      assert forall i :: 0 <= i < |front| ==> front[i] == entries[i];
      ChosenUnique(front, persistent);
      NamesSplit(entries);
      AppendUniqueTo(Chosen(front, persistent), front, entries[|entries| - 1]);
    }
  }

  lemma AppendUniqueTo(part: seq<ServiceEntry>, entries: seq<ServiceEntry>, e: ServiceEntry)
    requires UniqueNames(part) && (forall f :: f in part ==> f in entries) && e.cfg.name !in Names(entries)
    ensures UniqueNames(part + [e])
  {
    forall f | f in part ensures f.cfg.name != e.cfg.name { assert f.cfg.name in Names(entries); }
    AppendUnique(part, e);
  }

  method PersistentEntries(entries: seq<ServiceEntry>) returns (out: seq<ServiceEntry>)
    ensures out == Chosen(entries, true)
  {
    out := [];
    for i := 0 to |entries|
      invariant out == Chosen(entries[..i], true)
    {
      assert entries[..i + 1][..i] == entries[..i];
      if Persists(entries[i].cfg) { out := out + [entries[i]]; }
    }
    assert entries[..|entries|] == entries;
  }

  /** Its filter is written the other way round. */
  method NonPersistentEntries(entries: seq<ServiceEntry>) returns (out: seq<ServiceEntry>)
    ensures out == Chosen(entries, false)
  {
    out := [];
    for i := 0 to |entries|
      invariant out == Chosen(entries[..i], false)
    {
      assert entries[..i + 1][..i] == entries[..i];
      if Passes(entries[i].cfg) { out := out + [entries[i]]; }
    }
    assert entries[..|entries|] == entries;
  }

  /** Among the persistent entries whoever depends on another one, directly or through others of them, is
      visited before it. */
  ghost predicate DependentsLeaveFirst(entries: seq<ServiceEntry>, visited: seq<ServiceEntry>) {
    forall i, j ::
      (&& 0 <= i < |visited| && 0 <= j < |visited| && Persists(visited[i].cfg) && Persists(visited[j].cfg)
       && Reaches(Induced(Chosen(entries, true)), visited[i].cfg.name, visited[j].cfg.name)) ==>
        i < j
  }

  /** A direct dependency of one registered persistent service on another is an edge of what the first pass sorts. */
  lemma DirectDependencyReaches(entries: seq<ServiceEntry>, e: ServiceEntry, f: ServiceEntry)
    requires UniqueNames(entries) && e in entries && f in entries && Persists(e.cfg) && Persists(f.cfg)
    requires f.cfg.name in AllDeps(e.cfg)
    ensures Reaches(Induced(Chosen(entries, true)), e.cfg.name, f.cfg.name)
  {
    var part := Chosen(entries, true);
    InnerEdge(part, e, f);
    EdgeReaches(Induced(part), e.cfg.name, f.cfg.name);
  }

  lemma InnerEdge(part: seq<ServiceEntry>, e: ServiceEntry, f: ServiceEntry)
    requires e in part && f in part && f.cfg.name in AllDeps(e.cfg)
    ensures Edge(Induced(part), e.cfg.name, f.cfg.name)
  {
    var n, d := e.cfg.name, f.cfg.name;
    assert n in Names(part) && d in Names(part);
    assert e in part && e.cfg.name == n && d in AllDeps(e.cfg) && d in Names(part);
  }

  /** Stop one entry after another. */
  method Visit(visited: seq<ServiceEntry>, order: seq<ServiceEntry>) returns (after: seq<ServiceEntry>)
    ensures after == visited + order
  {
    after := visited;
    for i := 0 to |order|
      invariant after == visited + order[..i]
    {
      after := after + [order[i]];
    }
    assert order[..|order|] == order;
  }

  /** registry is what is registered when the first pass takes its snapshot, later what is left when the
      second one does: in between, entries can only go. */
  method StopAll(registry: seq<ServiceEntry>, later: seq<ServiceEntry>)
      returns (visited: seq<ServiceEntry>, cycle: bool)
    requires UniqueNames(registry) && UniqueNames(later) && forall e :: e in later ==> e in registry
    ensures UniqueNames(visited)
    ensures forall e :: e in visited <==> (e in registry && Persists(e.cfg)) || (e in later && !Persists(e.cfg))
    ensures forall i, j :: 0 <= i < j < |visited| && Persists(visited[j].cfg) ==> Persists(visited[i].cfg)
    ensures cycle <==> !Acyclic(Induced(Chosen(registry, true)))
    ensures Acyclic(DepGraph(registry)) ==> !cycle
    ensures !cycle ==> DependentsLeaveFirst(registry, visited)
    ensures cycle ==> visited == Chosen(registry, true) + Chosen(later, false)
  {
    hide Acyclic, DepGraph, Induced, StopsDependentsFirst, DependentsLeaveFirst;
    var persistent := PersistentEntries(registry);
    ChosenUnique(registry, true);
    ChosenUnique(later, false);
    if Acyclic(DepGraph(registry)) { SubsetOfRegistrySorts(persistent, registry); }
    var order;
    order, cycle := StopOrder(persistent);
    visited := Visit([], order);
    assert [] + order == order;
    var others := NonPersistentEntries(later);
    visited := Visit(visited, others);
    PassesAreDisjoint(registry, later, order, others);
    if !cycle { FirstPassLeads(registry, order, others); }
  }

  /** No entry is in both passes: visiting one after the other visits nothing twice. */
  lemma PassesAreDisjoint(registry: seq<ServiceEntry>, later: seq<ServiceEntry>, order: seq<ServiceEntry>,
      others: seq<ServiceEntry>)
    requires UniqueNames(registry) && (forall e :: e in later ==> e in registry)
    requires UniqueNames(order) && (forall e :: e in order <==> e in Chosen(registry, true))
    requires UniqueNames(others) && others == Chosen(later, false)
    ensures UniqueNames(order + others)
  {
    var all := order + others;
    forall i, j | 0 <= i < j < |all| ensures all[i].cfg.name != all[j].cfg.name {
      if i < |order| <= j {
        assert all[i] in order && all[j] in others;
        if all[i].cfg.name == all[j].cfg.name { SameNameSameEntry(registry, all[i], all[j]); }
      }
    }
  }

  lemma FirstPassLeads(registry: seq<ServiceEntry>, order: seq<ServiceEntry>, others: seq<ServiceEntry>)
    requires StopsDependentsFirst(Chosen(registry, true), order) && forall k :: 0 <= k < |others| ==>
        !Persists(others[k].cfg)
    ensures DependentsLeaveFirst(registry, order + others)
  {
  }
}
