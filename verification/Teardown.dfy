/** Selecting, reserving and removing the entries of a teardown, for one service or a whole group. */
module Teardown {
  import opened Digraph
  import opened Services
  import opened Registry
  import opened Dependents

  datatype MembershipError =
    | UnsupportedOptions
    | ShutDown(gate: RegisterError)
    | ServiceNotFound
    | HasDependents(blockers: seq<string>)
    | GroupHasDependents(refusals: seq<(string, seq<string>)>)
    | ReentrantMembership(name: string)
    | MembershipBusy(name: string)

  datatype Selection = Selected(set_: seq<ServiceEntry>) | Rejected(error: MembershipError)

  /** e blocks a plain stop of target: another member of the closure that runs or is starting. */
  ghost predicate Blocks(entries: seq<ServiceEntry>, target: ServiceEntry, e: ServiceEntry)
    requires UniqueNames(entries)
    reads e
  {
    InClosure(entries, {target.cfg.name}, e) && e != target && e.Active()
  }

  method ActiveDependents(target: ServiceEntry, order: seq<ServiceEntry>) returns (blockers: seq<string>)
    ensures forall n :: n in blockers <==>
              exists e :: e in order && e != target && (e.status == Running || e.status == Starting) && e.cfg.name == n
  {
    blockers := [];
    for i := 0 to |order|
      invariant forall n :: n in blockers <==>
          exists e :: e in order[..i] && e != target && e.Active() && e.cfg.name == n
    {
      assert order[..i + 1] == order[..i] + [order[i]];
      if order[i] != target && order[i].Active() { blockers := blockers + [order[i].cfg.name]; }
    }
    assert order[..|order|] == order;
  }

  /** The caller is inside the Start or Stop of one of the entries. */
  ghost predicate OwnsOne(chosen: seq<ServiceEntry>, goid: nat)
    reads chosen
  {
    exists e :: e in chosen && goid != 0 && (e.startGoid == goid || e.stopGoid == goid)
  }

  /** A start or another teardown holds one of the entries. */
  ghost predicate HeldOne(chosen: seq<ServiceEntry>)
    reads chosen
  {
    exists e :: e in chosen && (e.starting || e.removing)
  }

  /** Reserve all of the chosen entries, or none when one is owned by the caller or already reserved. */
  method Reserve(chosen: seq<ServiceEntry>, goid: nat) returns (r: Selection)
    modifies (set e | e in chosen)`removing
    ensures r.Selected? ==> r.set_ == chosen && forall e :: e in chosen ==>
              e.removing && !old(e.removing) && !e.starting && !e.LifecycleOwnedBy(goid)
    ensures r.Selected? <==> !OwnsOne(chosen, goid) && !old(HeldOne(chosen))
    ensures r.Rejected? ==> forall e :: e in chosen ==> e.removing == old(e.removing)
    ensures r.Rejected? ==>
              if OwnsOne(chosen, goid)
              then r.error.ReentrantMembership? &&
                   exists e :: e in chosen && e.LifecycleOwnedBy(goid) && e.cfg.name == r.error.name
              else r.error.MembershipBusy? &&
                   exists e :: e in chosen && (e.starting || e.removing) && e.cfg.name == r.error.name
  {
    for i := 0 to |chosen|
      invariant forall k :: 0 <= k < i ==> !chosen[k].LifecycleOwnedBy(goid)
      invariant forall e :: e in chosen ==> e.removing == old(e.removing)
    {
      if chosen[i].LifecycleOwnedBy(goid) { return Rejected(ReentrantMembership(chosen[i].cfg.name)); }
    }
    for i := 0 to |chosen|
      invariant forall k :: 0 <= k < i ==> !chosen[k].starting && !chosen[k].removing
      invariant forall e :: e in chosen ==> e.removing == old(e.removing)
    {
      if chosen[i].starting || chosen[i].removing { return Rejected(MembershipBusy(chosen[i].cfg.name)); }
    }
    for i := 0 to |chosen|
      invariant forall k :: 0 <= k < i ==> chosen[k].removing
    {
      chosen[i].removing := true;
    }
    return Selected(chosen);
  }

  /** What a teardown of one service may touch: its whole closure under cascade, itself otherwise. */
  ghost predicate TearDownSet(entries: seq<ServiceEntry>, target: ServiceEntry, cascade: bool,
      chosen: seq<ServiceEntry>)
    requires UniqueNames(entries)
  {
    if cascade then
      && (forall e :: e in chosen ==> e in entries)
      && (forall e :: e in entries ==> (e in chosen <==> InClosure(entries, {target.cfg.name}, e)))
      && UniqueNames(chosen) && chosen != [] && chosen[|chosen| - 1] == target
      && DependentBeforeDependency(HardGraph(entries), chosen)
    else chosen == [target]
  }

  /** The entries of the registry that a teardown of one service would touch. */
  ghost function Touched(entries: seq<ServiceEntry>, target: ServiceEntry, cascade: bool): set<ServiceEntry>
    requires UniqueNames(entries)
  {
    if cascade then set e | e in entries && InClosure(entries, {target.cfg.name}, e) else {target}
  }

  /** The caller is inside the Start or Stop of one of them. */
  ghost predicate Owned(touched: set<ServiceEntry>, goid: nat)
    reads touched
  {
    exists e :: e in touched && goid != 0 && (e.startGoid == goid || e.stopGoid == goid)
  }

  /** A start or another teardown holds one of them. */
  ghost predicate Held(touched: set<ServiceEntry>)
    reads touched
  {
    exists e :: e in touched && (e.starting || e.removing)
  }

  lemma SameTouch(chosen: seq<ServiceEntry>, touched: set<ServiceEntry>, goid: nat)
    requires forall e :: e in chosen <==> e in touched
    ensures OwnsOne(chosen, goid) <==> Owned(touched, goid)
    ensures HeldOne(chosen) <==> Held(touched)
  {
  }

  /** The selection half of StopService and Unregister. */
  method SelectTearDown(o: Orchestrator, name: string, cascade: bool, orphans: bool, goid: nat)
      returns (r: Selection, ghost target: ServiceEntry?)
    requires o.Valid()
    modifies (set e | e in o.entries)`removing
    ensures r == Rejected(UnsupportedOptions) <==> cascade && orphans
    ensures !(cascade && orphans) && o.MembershipGate().Some? ==> r == Rejected(ShutDown(o.MembershipGate().value))
    ensures r == Rejected(ServiceNotFound) <==>
        !(cascade && orphans) && o.MembershipGate().None? && name !in Names(o.entries)
    ensures target != null ==> target in o.entries && target.cfg.name == name
    ensures target != null <==> !(cascade && orphans) && o.MembershipGate().None? && name in Names(o.entries)
    // A plain stop is refused exactly when another member of the closure runs or is starting.
    ensures target != null ==>
              (r.Rejected? && r.error.HasDependents? <==>
                  !cascade && !orphans && exists e :: e in o.entries && Blocks(o.entries, target, e))
    ensures target != null && r.Rejected? && r.error.HasDependents? ==>
              forall n :: n in r.error.blockers <==>
                  exists e :: e in o.entries && Blocks(o.entries, target, e) && e.cfg.name == n
    // Otherwise it is a re-entry if the caller owns one of the entries it would touch, busy if one of them is
    // held, and selects them all if neither.
    ensures target != null && !(r.Rejected? && r.error.HasDependents?) ==>
              var touched := Touched(o.entries, target, cascade);
              && (r.Rejected? && r.error.ReentrantMembership? <==> Owned(touched, goid))
              && (r.Rejected? && r.error.MembershipBusy? <==> !Owned(touched, goid) && old(Held(touched)))
              && (r.Selected? <==> !Owned(touched, goid) && !old(Held(touched)))
    ensures r.Selected? ==> target != null && TearDownSet(o.entries, target, cascade, r.set_)
    ensures r.Selected? ==> forall e :: e in r.set_ ==>
        e.removing && !old(e.removing) && !e.starting && !e.LifecycleOwnedBy(goid)
    ensures forall e :: e in o.entries ==> (e.removing <==> old(e.removing) || (r.Selected? && e in r.set_))
  {
    hide DependentBeforeDependency, Acyclic, DepGraph, HardGraph, Reaches, OwnsOne, HeldOne, Owned, Held;
    target := null;
    if cascade && orphans { return Rejected(UnsupportedOptions), null; }
    if o.MembershipGate().Some? { return Rejected(ShutDown(o.MembershipGate().value)), null; }
    var entry := o.LookupEntry(name);
    if entry == null { return Rejected(ServiceNotFound), null; }
    target := entry;
    HardIsAcyclic(o.entries);
    var ordered := HardDependentsOrder(o.entries, entry);
    var chosen := ordered;
    if !cascade {
      if !orphans {
        var blockers := ActiveDependents(entry, ordered);
        if blockers != [] {
          BlockersExact(o.entries, entry, ordered, blockers);
          assert blockers[0] in blockers;
          return Rejected(HasDependents(blockers)), entry;
        }
        BlockersExact(o.entries, entry, ordered, blockers);
      }
      chosen := [entry];
    }
    ghost var touched := Touched(o.entries, entry, cascade);
    assert forall e :: e in chosen <==> e in touched;
    SameTouch(chosen, touched, goid);
    r := Reserve(chosen, goid);
    SameTouch(chosen, touched, goid);
  }

  lemma BlockersExact(entries: seq<ServiceEntry>, target: ServiceEntry, order: seq<ServiceEntry>, blockers: seq<string>)
    requires UniqueNames(entries) && target in entries
    requires forall e :: e in order <==> InClosure(entries, {target.cfg.name}, e)
    requires forall n :: n in blockers <==> exists e :: e in order && e != target && e.Active() && e.cfg.name == n
    ensures forall n :: n in blockers <==> exists e :: e in entries && Blocks(entries, target, e) && e.cfg.name == n
    ensures blockers == [] ==> !exists e :: e in entries && Blocks(entries, target, e)
  {
    forall n | n in blockers ensures exists e :: e in entries && Blocks(entries, target, e) && e.cfg.name == n {
      var e :| e in order && e != target && e.Active() && e.cfg.name == n;
      assert Blocks(entries, target, e);
    }
    if e :| e in entries && Blocks(entries, target, e) {
      assert e in order;
      assert e.cfg.name in blockers;
    }
  }

  lemma HardIsAcyclic(entries: seq<ServiceEntry>)
    requires UniqueNames(entries) && Acyclic(DepGraph(entries))
    ensures Acyclic(HardGraph(entries))
  {
    SublistGraph(entries, entries);
    SubgraphAcyclic(HardGraph(entries), DepGraph(entries));
  }

  /** rest holds exactly the entries of before that were not taken out. */
  ghost predicate Left(before: seq<ServiceEntry>, out: seq<ServiceEntry>, rest: seq<ServiceEntry>) {
    && (forall e :: e in rest ==> e in before && e !in out)
    && (forall e :: e in before && e !in out ==> e in rest)
  }

  lemma LeftStep(before: seq<ServiceEntry>, chosen: seq<ServiceEntry>, i: nat, mid: seq<ServiceEntry>,
      rest: seq<ServiceEntry>)
    requires i < |chosen| && UniqueNames(chosen) && chosen[i] in before
    requires Left(before, chosen[..i], mid) && Left(mid, [chosen[i]], rest)
    ensures Left(before, chosen[..i + 1], rest)
  {
    assert chosen[..i + 1] == chosen[..i] + [chosen[i]];
  }

  lemma LeftNone(before: seq<ServiceEntry>, chosen: seq<ServiceEntry>)
    ensures Left(before, chosen[..0], before)
  {
  }

  lemma NextIsLeft(before: seq<ServiceEntry>, chosen: seq<ServiceEntry>, i: nat, mid: seq<ServiceEntry>)
    requires i < |chosen| && UniqueNames(chosen) && chosen[i] in before && Left(before, chosen[..i], mid)
    ensures chosen[i] in mid && forall k :: 0 <= k < i ==> chosen[k] != chosen[i]
  {
  }

  method RemoveOne(o: Orchestrator, e: ServiceEntry)
    requires o.Valid() && e in o.entries
    modifies o`entries, o`nameIndex, e
    ensures o.Valid() && Left(old(o.entries), [e], o.entries) && e.removed && e.status == Registered
  {
    o.RemoveEntry(e);
  }

  /** Remove every selected entry, whatever its stop reported. */
  method RemoveAll(o: Orchestrator, chosen: seq<ServiceEntry>)
    requires o.Valid() && UniqueNames(chosen) && forall e :: e in chosen ==> e in o.entries
    modifies o`entries, o`nameIndex, chosen
    ensures o.Valid() && Left(old(o.entries), chosen, o.entries)
    ensures forall e :: e in chosen ==> e.removed && e.status == Registered
  {
    hide Left, UniqueNames, DepGraph, Acyclic, Orchestrator.Valid;
    LeftNone(o.entries, chosen);
    for i := 0 to |chosen|
      invariant o.Valid() && Left(old(o.entries), chosen[..i], o.entries)
      invariant forall k :: 0 <= k < i ==> chosen[k].removed && chosen[k].status == Registered
    {
      ghost var mid := o.entries;
      NextIsLeft(old(o.entries), chosen, i, mid);
      RemoveOne(o, chosen[i]);
      LeftStep(old(o.entries), chosen, i, mid, o.entries);
    }
    assert chosen[..|chosen|] == chosen;
  }

  /** Whoever hard-depends on a name in out is in out itself. */
  ghost predicate ClosedUnderDependents(entries: seq<ServiceEntry>, out: seq<ServiceEntry>) {
    forall e, d :: e in entries && d in e.cfg.dependsOn && d in Names(out) ==> e in out
  }

  lemma ClosureIsClosed(entries: seq<ServiceEntry>, roots: set<string>, out: seq<ServiceEntry>)
    requires UniqueNames(entries) && forall e :: e in out ==> e in entries
    requires forall e :: e in entries ==> (e in out <==> InClosure(entries, roots, e))
    ensures ClosedUnderDependents(entries, out)
  {
    var g := HardGraph(entries);
    forall e, d | e in entries && d in e.cfg.dependsOn && d in Names(out) ensures e in out {
      var x := NodeOf(out, d);
      HardEdge(entries, e, d);
      EdgeReaches(g, e.cfg.name, d);
      if d !in roots {
        var r :| r in roots && Reaches(g, d, r);
        ReachesTrans(g, e.cfg.name, d, r);
      }
      assert InClosure(entries, roots, e);
    }
  }

  /** A removal keeps every remaining hard dependency registered exactly when what it takes out is
      closed under hard dependents, which a cascade always is. */
  lemma RemovalKeepsHardDeps(before: seq<ServiceEntry>, out: seq<ServiceEntry>, rest: seq<ServiceEntry>)
    requires UniqueNames(before) && HardDepsRegistered(before) && Left(before, out, rest)
    requires forall e :: e in out ==> e in before
    ensures HardDepsRegistered(rest) <==> ClosedUnderDependents(before, out)
  {
    if ClosedUnderDependents(before, out) {
      forall e, d | e in rest && d in e.cfg.dependsOn ensures d in Names(rest) {
        assert d in Names(before);
        var x := NodeOf(before, d);
        assert x in out ==> d in Names(out);
      }
    } else {
      var e, d :| e in before && d in e.cfg.dependsOn && d in Names(out) && e !in out;
      assert d !in Names(rest) by {
        if d in Names(rest) {
          var x := NodeOf(rest, d);
          var y := NodeOf(out, d);
          SameNameSameEntry(before, x, y);
        }
      }
    }
  }

  /** The removing flags freeze a reserved set: an admissible registration adds no dependent to it. */
  lemma FrozenSetStaysClosed(entries: seq<ServiceEntry>, out: seq<ServiceEntry>, removing: set<string>, e: ServiceEntry)
    requires UniqueNames(entries) && ClosedUnderDependents(entries, out) && Names(out) <= removing
    requires Admissible(entries, removing, e.cfg)
    ensures ClosedUnderDependents(entries + [e], out)
  {
  }

  /** Without the check of the flags, as in the commit of a hot add, a new entry keeps the set closed exactly
      when none of its hard dependencies is in the set. */
  lemma CommitKeepsClosed(entries: seq<ServiceEntry>, out: seq<ServiceEntry>, e: ServiceEntry)
    requires ClosedUnderDependents(entries, out) && e !in out
    ensures ClosedUnderDependents(entries + [e], out) <==> forall d :: d in e.cfg.dependsOn ==> d !in Names(out)
  {
    if ClosedUnderDependents(entries + [e], out) { assert e in entries + [e]; }
  }

  /** What others may do to the registry while the entries of out are reserved: append an entry under a new name,
      or remove entries that are not reserved. */
  ghost predicate OthersChange(before: seq<ServiceEntry>, out: seq<ServiceEntry>, after: seq<ServiceEntry>) {
    || (after != [] && Appends(before, after, after[|after| - 1]))
    || (UniqueNames(after) && (forall e :: e in after ==> e in before) && forall e :: e in out ==> e in after)
  }

  ghost predicate Appends(before: seq<ServiceEntry>, after: seq<ServiceEntry>, e: ServiceEntry) {
    after == before + [e] && e.cfg.name !in Names(before)
  }

  /** The registry from the moment of the reservation on, one snapshot after each change by others. */
  ghost predicate ReservedRun(run: seq<seq<ServiceEntry>>, out: seq<ServiceEntry>) {
    && |run| > 0 && UniqueNames(run[0]) && (forall e :: e in out ==> e in run[0])
    && forall i :: 0 < i < |run| ==> OthersChange(run[i - 1], out, run[i])
  }

  lemma {:induction false} ReservedStay(run: seq<seq<ServiceEntry>>, out: seq<ServiceEntry>, k: nat)
    requires ReservedRun(run, out) && k < |run|
    ensures UniqueNames(run[k]) && forall e :: e in out ==> e in run[k]
  {
    if k > 0 {
      ReservedStay(run, out, k - 1);
      assert OthersChange(run[k - 1], out, run[k]);
      var before, after := run[k - 1], run[k];
      if after != [] && Appends(before, after, after[|after| - 1]) { AppendUnique(before, after[|after| - 1]); }
    }
  }

  /** Nobody who came since the reservation hard-depends on a reserved entry. */
  ghost predicate NoneJoined(first: seq<ServiceEntry>, now: seq<ServiceEntry>, out: seq<ServiceEntry>) {
    forall e, d :: e in now && e !in first && d in e.cfg.dependsOn ==> d !in Names(out)
  }

  /** Whatever they do, the reserved entries stay; and they stay closed under dependents if and only if no entry
      that came since names one of them, which only the commit of a hot add can let through. */
  lemma ReservedStaysClosed(run: seq<seq<ServiceEntry>>, out: seq<ServiceEntry>, k: nat)
    requires ReservedRun(run, out) && ClosedUnderDependents(run[0], out) && k < |run|
    ensures UniqueNames(run[k]) && forall e :: e in out ==> e in run[k]
    ensures ClosedUnderDependents(run[k], out) <==> NoneJoined(run[0], run[k], out)
  {
    ReservedStay(run, out, k);
  }

  /** Take out everything that hard-depended on the roots, and the roots, when they were reserved: however the
      registry changed since, what stays keeps its hard dependencies if and only if nobody has joined them. */
  method RemoveClosure(o: Orchestrator, chosen: seq<ServiceEntry>, ghost roots: set<string>,
      ghost run: seq<seq<ServiceEntry>>)
    requires o.Valid() && UniqueNames(chosen) && ReservedRun(run, chosen) && run[|run| - 1] == o.entries
    requires forall e :: e in run[0] ==> (e in chosen <==> InClosure(run[0], roots, e))
    modifies o`entries, o`nameIndex, chosen
    ensures o.Valid() && Left(old(o.entries), chosen, o.entries)
    ensures HardDepsRegistered(old(o.entries)) ==>
              (HardDepsRegistered(o.entries) <==> NoneJoined(run[0], old(o.entries), chosen))
  {
    hide InClosure, ClosedUnderDependents, HardDepsRegistered, Left, OthersChange, NoneJoined;
    ghost var before := o.entries;
    ClosureIsClosed(run[0], roots, chosen);
    ReservedStaysClosed(run, chosen, |run| - 1);
    RemoveAll(o, chosen);
    if HardDepsRegistered(before) { RemovalKeepsHardDeps(before, chosen, o.entries); }
  }

  /** An entry outside the group that would break if member m went away. */
  ghost predicate BlocksGroup(entries: seq<ServiceEntry>, memberNames: set<string>, m: ServiceEntry, e: ServiceEntry)
    requires UniqueNames(entries)
    reads e
  {
    Blocks(entries, m, e) && e.cfg.name !in memberNames
  }

  /** The refusal names a member and exactly the outside dependents that it would break. */
  ghost predicate Refuses(entries: seq<ServiceEntry>, memberNames: set<string>, m: ServiceEntry,
      refusal: (string, seq<string>))
    requires UniqueNames(entries)
    reads entries
  {
    && m.cfg.name == refusal.0
    && forall n :: n in refusal.1 <==> exists e ::
         e in entries && BlocksGroup(entries, memberNames, m, e) && e.cfg.name == n
  }

  /** The entries of the group, in registration order. */
  function InGroup(entries: seq<ServiceEntry>, group: string): seq<ServiceEntry> {
    if entries == [] then []
    else
      var front, last := InGroup(entries[..|entries| - 1], group), entries[|entries| - 1];
      if last.cfg.group == group then front + [last] else front
  }

  method GroupMembers(entries: seq<ServiceEntry>, group: string)
      returns (members: seq<ServiceEntry>, memberNames: set<string>)
    requires UniqueNames(entries)
    ensures members == InGroup(entries, group)
    ensures forall e :: e in members <==> e in entries && e.cfg.group == group
    ensures UniqueNames(members) && memberNames == Names(members)
  {
    members, memberNames := [], {};
    for i := 0 to |entries|
      invariant members == InGroup(entries[..i], group)
      invariant forall e :: e in members <==> e in entries[..i] && e.cfg.group == group
      invariant UniqueNames(members) && memberNames == Names(members)
    {
      var e := entries[i];
      assert entries[..i + 1] == entries[..i] + [e];
      assert entries[..i + 1][..i] == entries[..i];
      if e.cfg.group == group {
        assert e.cfg.name !in Names(members) by { NewName(entries, i, members); }
        AppendGraph(members, e);
        members, memberNames := members + [e], memberNames + {e.cfg.name};
      }
    }
    assert entries[..|entries|] == entries;
  }

  lemma NewName(entries: seq<ServiceEntry>, i: nat, earlier: seq<ServiceEntry>)
    requires UniqueNames(entries) && i < |entries| && forall e :: e in earlier ==> e in entries[..i]
    ensures entries[i].cfg.name !in Names(earlier)
  {
    if entries[i].cfg.name in Names(earlier) {
      var e := NodeOf(earlier, entries[i].cfg.name);
    }
  }

  /** Some active entry outside the group depends on m. */
  ghost predicate HasOutside(entries: seq<ServiceEntry>, memberNames: set<string>, m: ServiceEntry)
    requires UniqueNames(entries)
    reads entries
  {
    exists e :: e in entries && BlocksGroup(entries, memberNames, m, e)
  }

  /** Those of the members that some active entry outside the group depends on, in order. */
  ghost function WithOutside(entries: seq<ServiceEntry>, memberNames: set<string>, members: seq<ServiceEntry>)
    : seq<ServiceEntry>
    requires UniqueNames(entries)
    reads entries
  {
    if members == [] then []
    else
      var front, last := WithOutside(entries, memberNames, members[..|members| - 1]), members[|members| - 1];
      if HasOutside(entries, memberNames, last) then front + [last] else front
  }

  /** One refusal for each of them, in order. */
  ghost predicate RefusesEach(entries: seq<ServiceEntry>, memberNames: set<string>, blocked: seq<ServiceEntry>,
      refusals: seq<(string, seq<string>)>)
    requires UniqueNames(entries)
    reads entries
  {
    |refusals| == |blocked| &&
    forall k :: 0 <= k < |blocked| ==> Refuses(entries, memberNames, blocked[k], refusals[k])
  }

  /** The refusals of a plain group removal, one per member with an active dependent outside. */
  method GroupRefusals(entries: seq<ServiceEntry>, members: seq<ServiceEntry>, memberNames: set<string>)
    returns (refusals: seq<(string, seq<string>)>)
    requires UniqueNames(entries) && forall m :: m in members ==> m in entries
    ensures RefusesEach(entries, memberNames, WithOutside(entries, memberNames, members), refusals)
  {
    refusals := [];
    hide BlocksGroup, Blocks, HasOutside, Refuses;
    for i := 0 to |members|
      invariant RefusesEach(entries, memberNames, WithOutside(entries, memberNames, members[..i]), refusals)
    {
      assert members[..i + 1][..i] == members[..i];
      var outside := OutsideDependents(entries, members[i], memberNames);
      if outside != [] { refusals := refusals + [(members[i].cfg.name, outside)]; }
    }
    assert members[..|members|] == members;
  }

  /** Somebody is refused exactly if some member has an active dependent outside. */
  lemma {:induction false} RefusedIsBlocked(entries: seq<ServiceEntry>, memberNames: set<string>,
      members: seq<ServiceEntry>)
    requires UniqueNames(entries)
    ensures forall m :: m in WithOutside(entries, memberNames, members) <==>
                        m in members && HasOutside(entries, memberNames, m)
  {
    hide HasOutside;
    if members != [] {
      var front, last := members[..|members| - 1], members[|members| - 1];
      RefusedIsBlocked(entries, memberNames, front);
      assert members == front + [last];
    }
  }

  method OutsideDependents(entries: seq<ServiceEntry>, m: ServiceEntry, memberNames: set<string>)
      returns (outside: seq<string>)
    requires UniqueNames(entries) && m in entries
    ensures Refuses(entries, memberNames, m, (m.cfg.name, outside))
    ensures outside != [] <==> HasOutside(entries, memberNames, m)
  {
    var order := HardDependentsOrder(entries, m);
    var active := ActiveDependents(m, order);
    BlockersExact(entries, m, order, active);
    outside := [];
    for i := 0 to |active|
      invariant forall n :: n in outside <==> n in active[..i] && n !in memberNames
    {
      assert active[..i + 1] == active[..i] + [active[i]];
      if active[i] !in memberNames { outside := outside + [active[i]]; }
    }
    assert active[..|active|] == active;
    OutsideExact(entries, m, memberNames, active, outside);
  }

  lemma OutsideExact(entries: seq<ServiceEntry>, m: ServiceEntry, memberNames: set<string>, active: seq<string>,
      outside: seq<string>)
    requires UniqueNames(entries)
    requires forall n :: n in active <==> exists e :: e in entries && Blocks(entries, m, e) && e.cfg.name == n
    requires forall n :: n in outside <==> n in active && n !in memberNames
    ensures Refuses(entries, memberNames, m, (m.cfg.name, outside))
    ensures outside != [] <==> HasOutside(entries, memberNames, m)
  {
    hide Blocks;
    forall n ensures n in outside <==> exists e ::
        e in entries && BlocksGroup(entries, memberNames, m, e) && e.cfg.name == n {
      if n in outside {
        var e :| e in entries && Blocks(entries, m, e) && e.cfg.name == n;
        assert BlocksGroup(entries, memberNames, m, e);
      }
    }
    assert forall e :: e in entries && BlocksGroup(entries, memberNames, m, e) ==> e.cfg.name in outside;
    if outside != [] { assert outside[0] in outside; }
  }

  /** The entries of the registry that the removal of a group would touch. */
  ghost function TouchedGroup(entries: seq<ServiceEntry>, group: string, cascade: bool): set<ServiceEntry>
    requires UniqueNames(entries)
  {
    set e | e in entries && (if cascade then InGroupClosure(entries, group, e) else e.cfg.group == group)
  }

  lemma NobodyTouched(goid: nat)
    ensures !Owned({}, goid) && !Held({})
  {
  }

  /** Some active entry outside the group depends on a member of it. */
  ghost predicate GroupBlocked(entries: seq<ServiceEntry>, group: string)
    requires UniqueNames(entries)
    reads entries
  {
    exists m, e :: m in entries && m.cfg.group == group && e in entries && Blocks(entries, m, e) && e.cfg.group != group
  }

  lemma OutsideBlocks(entries: seq<ServiceEntry>, group: string, memberNames: set<string>, members: seq<ServiceEntry>)
    requires UniqueNames(entries) && (forall e :: e in members <==> e in entries && e.cfg.group == group)
    requires memberNames == Names(members)
    ensures WithOutside(entries, memberNames, members) != [] <==> GroupBlocked(entries, group)
  {
    hide Blocks;
    var blocked := WithOutside(entries, memberNames, members);
    RefusedIsBlocked(entries, memberNames, members);
    MemberNamesExact(entries, group, members);
    if blocked != [] {
      assert blocked[0] in blocked && HasOutside(entries, memberNames, blocked[0]);
      var e :| e in entries && BlocksGroup(entries, memberNames, blocked[0], e);
      assert e.cfg.group != group;
    }
    if GroupBlocked(entries, group) {
      var m, e :| m in entries && m.cfg.group == group && e in entries && Blocks(entries, m, e) && e.cfg.group != group;
      assert BlocksGroup(entries, memberNames, m, e);
      assert m in blocked;
    }
  }

  /** The selection half of UnregisterGroup. */
  method SelectGroupRemoval(o: Orchestrator, group: string, cascade: bool, orphans: bool, goid: nat)
      returns (r: Selection)
    requires o.Valid()
    modifies (set e | e in o.entries)`removing
    ensures r == Rejected(UnsupportedOptions) <==> cascade && orphans
    ensures !(cascade && orphans) && o.MembershipGate().Some? ==> r == Rejected(ShutDown(o.MembershipGate().value))
    ensures r.Rejected? && r.error.GroupHasDependents? <==>
              !cascade && !orphans && o.MembershipGate().None? && old(GroupBlocked(o.entries, group))
    // Otherwise it is a re-entry if the caller owns one of the entries it would touch, busy if one of them is
    // held, and selects them if neither: exactly the members, and under cascade exactly their closure.
    ensures !(cascade && orphans) && o.MembershipGate().None? && !(r.Rejected? && r.error.GroupHasDependents?) ==>
              var touched := TouchedGroup(o.entries, group, cascade);
              && (r.Rejected? && r.error.ReentrantMembership? <==> Owned(touched, goid))
              && (r.Rejected? && r.error.MembershipBusy? <==> !Owned(touched, goid) && old(Held(touched)))
              && (r.Selected? <==> !Owned(touched, goid) && !old(Held(touched)))
    // A refusal names every member with an active dependent outside, in registration order.
    ensures r.Rejected? && r.error.GroupHasDependents? ==>
              var members := InGroup(o.entries, group);
              RefusesEach(o.entries, Names(members), WithOutside(o.entries, Names(members), members), r.error.refusals)
    ensures r.Selected? ==> UniqueNames(r.set_) && forall e :: e in r.set_ ==> e in o.entries
    ensures r.Selected? && !cascade ==> forall e :: e in o.entries ==> (e in r.set_ <==> e.cfg.group == group)
    ensures r.Selected? && cascade ==> forall e :: e in o.entries ==>
        (e in r.set_ <==> InGroupClosure(o.entries, group, e))
    ensures r.Selected? ==> forall e :: e in r.set_ ==>
        e.removing && !old(e.removing) && !e.starting && !e.LifecycleOwnedBy(goid)
    ensures forall e :: e in o.entries ==> (e.removing <==> old(e.removing) || (r.Selected? && e in r.set_))
  {
    hide DependentBeforeDependency, Acyclic, DepGraph, HardGraph, InClosure, OwnsOne, HeldOne, Owned, Held,
         GroupBlocked, WithOutside, Refuses;
    if cascade && orphans { return Rejected(UnsupportedOptions); }
    if o.MembershipGate().Some? { return Rejected(ShutDown(o.MembershipGate().value)); }
    var members, memberNames := GroupMembers(o.entries, group);
    MemberNamesExact(o.entries, group, members);
    if members == [] {
      NoMembersNoClosure(o.entries, group, members);
      assert TouchedGroup(o.entries, group, cascade) == {};
      NobodyTouched(goid);
      return Selected([]);
    }
    if !cascade && !orphans {
      var refusals := GroupRefusals(o.entries, members, memberNames);
      OutsideBlocks(o.entries, group, memberNames, members);
      if refusals != [] { return Rejected(GroupHasDependents(refusals)); }
    }
    var chosen := members;
    if cascade {
      var outside := ExternalDependents(o.entries, members, memberNames);
      chosen := members + outside;
      GroupClosure(o.entries, group, members, outside);
    }
    ghost var touched := TouchedGroup(o.entries, group, cascade);
    assert forall e :: e in chosen <==> e in touched;
    SameTouch(chosen, touched, goid);
    r := Reserve(chosen, goid);
    SameTouch(chosen, touched, goid);
  }

  ghost predicate InGroupClosure(entries: seq<ServiceEntry>, group: string, e: ServiceEntry)
    requires UniqueNames(entries)
  {
    InClosure(entries, set m | m in entries && m.cfg.group == group :: m.cfg.name, e)
  }

  lemma MemberNamesExact(entries: seq<ServiceEntry>, group: string, members: seq<ServiceEntry>)
    requires UniqueNames(entries) && forall e :: e in members <==> e in entries && e.cfg.group == group
    ensures Names(members) == set m | m in entries && m.cfg.group == group :: m.cfg.name
    ensures forall e :: e in entries ==> (e.cfg.name in Names(members) <==> e.cfg.group == group)
  {
  }

  lemma NoMembersNoClosure(entries: seq<ServiceEntry>, group: string, members: seq<ServiceEntry>)
    requires UniqueNames(entries) && members == [] && forall e :: e in members <==> e in entries && e.cfg.group == group
    ensures forall e :: e in entries ==> e.cfg.group != group && !InGroupClosure(entries, group, e)
    ensures !GroupBlocked(entries, group)
  {
    forall e | e in entries ensures e.cfg.group != group { assert e !in members; }
  }

  lemma GroupClosure(entries: seq<ServiceEntry>, group: string, members: seq<ServiceEntry>, outside: seq<ServiceEntry>)
    requires UniqueNames(entries) && UniqueNames(members) && UniqueNames(outside)
    requires forall e :: e in members <==> e in entries && e.cfg.group == group
    requires forall e :: e in outside <==> InClosure(entries, Names(members), e) && e.cfg.name !in Names(members)
    ensures UniqueNames(members + outside)
    ensures forall e :: e in members + outside ==> e in entries
    ensures forall e :: e in entries ==> (e in members + outside <==> InGroupClosure(entries, group, e))
  {
    MemberNamesExact(entries, group, members);
    var all := members + outside;
    forall i, j | 0 <= i < j < |all| ensures all[i].cfg.name != all[j].cfg.name {
      if i < |members| && |members| <= j {
        assert all[j] in outside && all[i] in members;
      } else if j < |members| {
        assert all[i] == members[i] && all[j] == members[j];
      } else {
        assert all[i] == outside[i - |members|] && all[j] == outside[j - |members|];
      }
    }
  }
}
