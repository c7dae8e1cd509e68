/** The tick accounting of a cron entry: every critical section is one method, every tick a
    goroutine whose place in invokeCron is kept in `ticks`. Any interleaving of the methods is a run. */
module CronTicks {
  datatype CronMode = CronParallel | CronQueue | CronSkip

  /** Where a tick stands between its cronBegin and its cronEnd. The gate is the running flag of
      CronSkip or the mutex of CronQueue; the owner is released before the gate, the gate before the end. */
  datatype Phase = Begun | Gated | Owning | Released | Ungated

  datatype Tick = Tick(gen: nat, phase: Phase, owner: nat)

  /** A context: cancelled itself or through its parent. */
  class Context {
    var cancelled: bool
    const parent: Context?

    constructor (parent: Context?)
      ensures this.parent == parent && !cancelled
    {
      this.parent := parent;
      cancelled := false;
    }
  }

  /** A channel that carries nothing and is closed at most once. */
  class Latch {
    var closed: bool

    constructor ()
      ensures !closed
    {
      closed := false;
    }

    method Close()
      requires !closed
      modifies this
      ensures closed
    {
      closed := true;
    }
  }

  ghost function OfGen(ticks: map<nat, Tick>, g: nat): (r: set<nat>)
    ensures forall t :: t in r <==> t in ticks && ticks[t].gen == g
  {
    set t | t in ticks && ticks[t].gen == g
  }

  predicate Gating(phase: Phase) {
    phase.Gated? || phase.Owning? || phase.Released?
  }

  /** Ticks between passing the gate and leaving it. */
  ghost function InGate(ticks: map<nat, Tick>): (r: set<nat>)
    ensures forall t :: t in r <==> t in ticks && Gating(ticks[t].phase)
  {
    set t | t in ticks && Gating(ticks[t].phase)
  }

  /** Ticks that hold a messenger owner and run the user's Start. */
  ghost predicate HoldsOwner(ticks: map<nat, Tick>, id: nat) {
    exists t :: t in ticks && ticks[t].phase == Owning && ticks[t].owner == id
  }

  /** The counter counts the ticks of the current generation, and there are none of a later one. */
  ghost predicate CountOk(ticks: map<nat, Tick>, gen: nat, active: int) {
    active == |OfGen(ticks, gen)| && forall t :: t in ticks ==> ticks[t].gen <= gen
  }

  /** At most one tick inside the gate of a serialising mode, and the gate's flag says whether. */
  ghost predicate GateOk(exclusive: bool, flag: bool, ticks: map<nat, Tick>) {
    exclusive ==> (flag <==> InGate(ticks) != {}) && forall s, t :: s in InGate(ticks) && t in InGate(ticks) ==> s == t
  }

  ghost predicate OwnersOk(owners: set<nat>, ticks: map<nat, Tick>) {
    forall id :: id in owners ==> HoldsOwner(ticks, id)
  }

  ghost function Moved(ticks: map<nat, Tick>, tick: nat, phase: Phase, owner: nat): map<nat, Tick>
    requires tick in ticks
  {
    ticks[tick := Tick(ticks[tick].gen, phase, owner)]
  }

  lemma MoveCounts(ticks: map<nat, Tick>, tick: nat, phase: Phase, owner: nat, gen: nat, active: int)
    requires tick in ticks && CountOk(ticks, gen, active)
    ensures CountOk(Moved(ticks, tick, phase, owner), gen, active)
    ensures forall g :: OfGen(Moved(ticks, tick, phase, owner), g) == OfGen(ticks, g)
  {
    assert forall g :: OfGen(Moved(ticks, tick, phase, owner), g) == OfGen(ticks, g);
  }

  lemma MoveOwners(ticks: map<nat, Tick>, tick: nat, phase: Phase, owner: nat, owners: set<nat>)
    requires tick in ticks && OwnersOk(owners, ticks)
    requires phase == Owning || ticks[tick].phase != Owning || ticks[tick].owner !in owners
    requires ticks[tick].phase == Owning ==> phase != Owning
    ensures OwnersOk(owners, Moved(ticks, tick, phase, owner))
    ensures phase == Owning ==> OwnersOk(owners + {owner}, Moved(ticks, tick, phase, owner))
  {
    var after := Moved(ticks, tick, phase, owner);
    forall id | id in owners ensures HoldsOwner(after, id) {
      var t :| t in ticks && ticks[t].phase == Owning && ticks[t].owner == id;
      assert t in after && after[t] == ticks[t];
    }
    if phase == Owning { assert tick in after && after[tick].owner == owner; }
  }

  lemma ActiveCounts(ticks: map<nat, Tick>, gen: nat, active: int)
    requires CountOk(ticks, gen, active)
    ensures active >= 0 && (active == 0 <==> OfGen(ticks, gen) == {})
  {
  }

  /** No tick belongs to the generation after the current one. */
  lemma NoneOfGen(ticks: map<nat, Tick>, gen: nat, active: int)
    requires CountOk(ticks, gen, active)
    ensures OfGen(ticks, gen + 1) == {} && CountOk(ticks, gen + 1, 0)
  {
  }

  lemma CountBegin(ticks: map<nat, Tick>, tick: nat, gen: nat, active: int)
    requires tick !in ticks && CountOk(ticks, gen, active)
    ensures CountOk(ticks[tick := Tick(gen, Begun, 0)], gen, active + 1)
    ensures forall g :: g != gen ==> OfGen(ticks[tick := Tick(gen, Begun, 0)], g) == OfGen(ticks, g)
    ensures InGate(ticks[tick := Tick(gen, Begun, 0)]) == InGate(ticks)
  {
    assert OfGen(ticks[tick := Tick(gen, Begun, 0)], gen) == OfGen(ticks, gen) + {tick};
  }

  lemma CountEnd(ticks: map<nat, Tick>, tick: nat, gen: nat, active: int)
    requires tick in ticks && ticks[tick].phase == Ungated && CountOk(ticks, gen, active)
    ensures CountOk(ticks - {tick}, gen, if ticks[tick].gen == gen then active - 1 else active)
    ensures forall g :: OfGen(ticks - {tick}, g) <= OfGen(ticks, g)
    ensures forall exclusive, flag :: GateOk(exclusive, flag, ticks) ==> GateOk(exclusive, flag, ticks - {tick})
  {
    hide CountOk, GateOk;
    CountLess(ticks, tick, gen, active);
    GateUnmoved(ticks, tick);
  }

  lemma CountLess(ticks: map<nat, Tick>, tick: nat, gen: nat, active: int)
    requires tick in ticks && CountOk(ticks, gen, active)
    ensures CountOk(ticks - {tick}, gen, if ticks[tick].gen == gen then active - 1 else active)
  {
    if ticks[tick].gen == gen {
      assert OfGen(ticks, gen) == OfGen(ticks - {tick}, gen) + {tick};
    } else {
      assert OfGen(ticks, gen) == OfGen(ticks - {tick}, gen);
    }
  }

  lemma GateUnmoved(ticks: map<nat, Tick>, tick: nat)
    requires tick in ticks && ticks[tick].phase == Ungated
    ensures forall exclusive, flag :: GateOk(exclusive, flag, ticks) ==> GateOk(exclusive, flag, ticks - {tick})
  {
    assert InGate(ticks - {tick}) == InGate(ticks);
  }

  lemma GateCleared(exclusive: bool, ticks: map<nat, Tick>)
    ensures GateOk(exclusive && InGate(ticks) == {}, false, ticks)
  {
  }

  lemma GateEnter(exclusive: bool, flag: bool, ticks: map<nat, Tick>, tick: nat, passed: bool)
    requires tick in ticks && ticks[tick].phase == Begun && GateOk(exclusive, flag, ticks)
    requires exclusive && passed ==> !flag
    ensures passed ==> GateOk(exclusive, true, Moved(ticks, tick, Gated, 0))
    ensures !passed ==> GateOk(exclusive, flag, Moved(ticks, tick, Ungated, 0))
    ensures !exclusive ==> GateOk(exclusive, flag, Moved(ticks, tick, Gated, 0))
    ensures exclusive && flag ==> InGate(ticks) != {}
  {
    if passed {
      assert InGate(Moved(ticks, tick, Gated, 0)) == InGate(ticks) + {tick};
      assert tick in InGate(Moved(ticks, tick, Gated, 0));
    } else {
      assert InGate(Moved(ticks, tick, Ungated, 0)) == InGate(ticks);
    }
  }

  lemma GateLeave(exclusive: bool, flag: bool, ticks: map<nat, Tick>, tick: nat)
    requires tick in ticks && ticks[tick].phase == Released && GateOk(exclusive, flag, ticks)
    ensures GateOk(exclusive, false, Moved(ticks, tick, Ungated, 0))
    ensures !exclusive ==> GateOk(exclusive, flag, Moved(ticks, tick, Ungated, 0))
  {
    assert tick in InGate(ticks);
    assert InGate(Moved(ticks, tick, Ungated, 0)) == InGate(ticks) - {tick};
  }

  lemma OwnersBegin(ticks: map<nat, Tick>, tick: nat, gen: nat, owners: set<nat>)
    requires tick !in ticks && OwnersOk(owners, ticks)
    ensures OwnersOk(owners, ticks[tick := Tick(gen, Begun, 0)])
  {
    var after := ticks[tick := Tick(gen, Begun, 0)];
    forall id | id in owners ensures HoldsOwner(after, id) {
      var t :| t in ticks && ticks[t].phase == Owning && ticks[t].owner == id;
      assert t in after;
    }
  }

  lemma OwnersEnd(ticks: map<nat, Tick>, tick: nat, owners: set<nat>)
    requires tick in ticks && ticks[tick].phase == Ungated && OwnersOk(owners, ticks)
    ensures OwnersOk(owners, ticks - {tick})
  {
    forall id | id in owners ensures HoldsOwner(ticks - {tick}, id) {
      var t :| t in ticks && ticks[t].phase == Owning && ticks[t].owner == id;
      assert t in ticks - {tick};
    }
  }

  class CronEntry {
    const mode: CronMode
    var cronCtx: Context?
    var cronGen: nat
    var cronActive: int
    var cronDraining: bool
    var cronDrained: Latch?
    var running: bool
    var cronMuHeld: bool
    var owners: set<nat>
    /** Ticks begun and not ended, and the generation each drain latch was made for. */
    ghost var ticks: map<nat, Tick>
    ghost var latches: map<Latch, nat>
    /** Whether the gate flag was ever reset under a live tick (removal, failed start). */
    ghost var gateReset: bool

    predicate CtxDone()
      reads this, cronCtx, if cronCtx != null then {cronCtx.parent} else {}
    {
      cronCtx == null || cronCtx.cancelled || (cronCtx.parent != null && cronCtx.parent.cancelled)
    }

    /** No tick of generation g can begin any more. */
    ghost predicate Sealed(g: nat)
      reads this, cronCtx, if cronCtx != null then {cronCtx.parent} else {}
    {
      g < cronGen || (g == cronGen && (cronDraining || CtxDone()))
    }

    /** Generation g is over: no tick of it is in flight and none can begin. */
    ghost predicate Over(g: nat)
      reads this, cronCtx, if cronCtx != null then {cronCtx.parent} else {}
    {
      Sealed(g) && OfGen(ticks, g) == {}
    }

    /** The entry is stopped for good, until it is scheduled again: nothing of any generation is in flight
        and no subscription owner is left. */
    ghost predicate Swept()
      reads this, cronCtx, if cronCtx != null then {cronCtx.parent} else {}
    {
      Sealed(cronGen) && ticks == map[] && owners == {}
    }

    /** The current latch is open and awaited by live ticks; a closed one belongs to a generation that
        is over. */
    ghost predicate LatchesOk()
      reads this, latches.Keys
    {
      && (cronDrained != null ==> cronDrained in latches && latches[cronDrained] == cronGen && !cronDrained.closed
                                  && cronActive > 0 && cronDraining)
      && (forall l :: l in latches ==> latches[l] <= cronGen)
      && (forall l :: l in latches && latches[l] == cronGen && !l.closed ==> l == cronDrained)
      && (forall l :: l in latches && l.closed ==>
           OfGen(ticks, latches[l]) == {} && (latches[l] == cronGen ==> cronDraining))
    }

    ghost predicate Valid()
      reads this, latches.Keys
    {
      && CountOk(ticks, cronGen, cronActive) && LatchesOk() && OwnersOk(owners, ticks)
      && GateOk(mode == CronSkip && !gateReset, running, ticks) && GateOk(mode == CronQueue, cronMuHeld, ticks)
    }

    constructor (mode: CronMode)
      ensures Valid() && this.mode == mode && cronGen == 0 && ticks == map[] && latches == map[] && !gateReset
      ensures cronCtx == null && !running
    {
      this.mode := mode;
      cronCtx, cronGen, cronActive, cronDraining, cronDrained := null, 0, 0, false, null;
      running, cronMuHeld, owners := false, false, {};
      ticks, latches, gateReset := map[], map[], false;
      new;
      assert OfGen(ticks, 0) == {} && InGate(ticks) == {};
    }

    /** A fresh schedule: a new generation no tick belongs to yet. */
    method StartCronSchedule(parent: Context) returns (gen: nat)
      requires Valid()
      modifies this`cronCtx, this`cronGen, this`cronActive, this`cronDraining, this`cronDrained, cronCtx
      ensures Valid() && gen == cronGen == old(cronGen) + 1
      ensures OfGen(ticks, gen) == {} && (Sealed(gen) <==> parent.cancelled) && fresh(cronCtx)
      ensures cronCtx.parent == parent && (old(cronCtx) != null ==> old(cronCtx).cancelled)
      ensures forall g :: (old(Sealed(g)) ==> Sealed(g)) && (old(Over(g)) ==> Over(g))
    {
      hide GateOk, OwnersOk, CountOk;
      NoneOfGen(ticks, cronGen, cronActive);
      if cronCtx != null { cronCtx.cancelled := true; }
      cronGen := cronGen + 1;
      cronCtx := new Context(parent);
      cronActive, cronDraining, cronDrained := 0, false, null;
      return cronGen;
    }

    /** Admit a tick of generation gen, or refuse it. */
    method CronBegin(gen: nat, ghost tick: nat) returns (ok: bool)
      requires Valid() && tick !in ticks
      modifies this`cronActive, this`ticks
      ensures Valid()
      ensures ok <==> gen == cronGen && !Sealed(gen)
      ensures ok ==> cronCtx != null && !cronCtx.cancelled && (cronCtx.parent != null ==> !cronCtx.parent.cancelled)
      ensures ticks == if ok then old(ticks)[tick := Tick(gen, Begun, 0)] else old(ticks)
      ensures forall g :: Sealed(g) ==> OfGen(ticks, g) == old(OfGen(ticks, g))
      ensures forall g :: old(Over(g)) ==> Over(g)
      ensures old(Swept()) ==> Swept()
    {
      if cronDraining || cronCtx == null || gen != cronGen || CtxDone() { return false; }
      CountBegin(ticks, tick, gen, cronActive);
      OwnersBegin(ticks, tick, gen, owners);
      cronActive := cronActive + 1;
      ticks := ticks[tick := Tick(gen, Begun, 0)];
      return true;
    }

    /** Account for the end of a tick: the last one of the current generation closes the latch, if
        somebody drains. A tick of an older generation leaves counters and latches alone. */
    method CronEnd(gen: nat, ghost tick: nat)
      requires Valid() && tick in ticks && ticks[tick].gen == gen && ticks[tick].phase == Ungated
      modifies this`cronActive, this`cronDrained, this`ticks, cronDrained
      ensures Valid() && ticks == old(ticks) - {tick}
      ensures cronActive == if gen == cronGen then old(cronActive) - 1 else old(cronActive)
      ensures forall l :: l in latches ==>
                (l.closed <==> old(l.closed) || (l == old(cronDrained) && gen == cronGen && OfGen(ticks, gen) == {}))
      ensures forall g :: old(Over(g)) ==> Over(g)
      ensures old(Swept()) ==> Swept()
    {
      hide GateOk, OwnersOk;
      CountEnd(ticks, tick, cronGen, cronActive);
      OwnersEnd(ticks, tick, owners);
      ticks := ticks - {tick};
      if gen != cronGen { return; }
      cronActive := cronActive - 1;
      if cronActive == 0 && cronDraining && cronDrained != null {
        cronDrained.Close();
        cronDrained := null;
      }
    }

    /** Seal the current generation, cancel its ticks, and give the caller something to wait on:
        nothing exactly when no tick of the generation is in flight. */
    method CronDrain() returns (latch: Latch?)
      requires Valid()
      modifies this`cronDraining, this`cronDrained, this`latches, cronCtx
      ensures Valid() && Sealed(cronGen) && cronDraining
      ensures cronCtx != null ==> cronCtx.cancelled
      ensures latch == null <==> Over(cronGen)
      ensures latch != null ==> latch in latches && latches[latch] == cronGen && !latch.closed && cronDrained == latch
      ensures forall l :: l in old(latches) ==>
          l in latches && latches[l] == old(latches)[l] && l.closed == old(l.closed)
      ensures old(cronDrained) != null ==> latch == old(cronDrained)
      ensures forall g :: (old(Sealed(g)) ==> Sealed(g)) && (old(Over(g)) ==> Over(g))
      ensures old(Swept()) ==> Swept()
    {
      hide GateOk, OwnersOk, CountOk, OfGen;
      ActiveCounts(ticks, cronGen, cronActive);
      cronDraining := true;
      if cronCtx != null { cronCtx.cancelled := true; }
      if cronActive == 0 { return null; }
      if cronDrained == null {
        cronDrained := new Latch();
        latches := latches[cronDrained := cronGen];
      }
      return cronDrained;
    }

    /** Forget the schedule; ticks still in flight become stale. */
    method ResetCronAccounting()
      requires Valid()
      modifies this`cronCtx, this`cronGen, this`cronActive, this`cronDraining, this`cronDrained, cronCtx
      ensures Valid() && cronGen == old(cronGen) + 1 && cronCtx == null && Sealed(cronGen)
      ensures old(cronCtx) != null ==> old(cronCtx).cancelled
      ensures forall g :: (old(Sealed(g)) ==> Sealed(g)) && (old(Over(g)) ==> Over(g))
      ensures old(Swept()) ==> Swept()
    {
      hide GateOk, OwnersOk, CountOk;
      NoneOfGen(ticks, cronGen, cronActive);
      if cronCtx != null { cronCtx.cancelled := true; }
      cronGen := cronGen + 1;
      cronCtx, cronActive, cronDraining, cronDrained := null, 0, false, null;
    }

    /** A registered, never started entry again: the gate is cleared under whoever is inside it. */
    method ResetEntry()
      requires Valid()
      modifies this`cronCtx, this`cronGen, this`cronActive, this`cronDraining, this`cronDrained, this`running,
          this`gateReset, cronCtx
      ensures Valid() && cronGen == old(cronGen) + 1 && cronCtx == null && !running && Sealed(cronGen)
      ensures gateReset <==> old(gateReset) || InGate(ticks) != {}
      ensures old(cronCtx) != null ==> old(cronCtx).cancelled
      ensures forall g :: (old(Sealed(g)) ==> Sealed(g)) && (old(Over(g)) ==> Over(g))
      ensures old(Swept()) ==> Swept()
    {
      hide GateOk, OwnersOk, CountOk;
      GateCleared(mode == CronSkip && !gateReset, ticks);
      running := false;
      gateReset := gateReset || InGate(ticks) != {};
      ResetCronAccounting();
    }

    /** The orchestrator cancels the context that every schedule hangs from. */
    method CancelParent()
      requires Valid() && cronCtx != null && cronCtx.parent != null
      modifies cronCtx.parent
      ensures Valid() && Sealed(cronGen)
      ensures forall g :: (old(Sealed(g)) ==> Sealed(g)) && (old(Over(g)) ==> Over(g))
      ensures old(Swept()) ==> Swept()
    {
      cronCtx.parent.cancelled := true;
    }

    /** The tick passes or fails the gate of its mode; in CronQueue it steps once the mutex is free. */
    method EnterGate(ghost tick: nat) returns (passed: bool)
      requires Valid() && tick in ticks && ticks[tick].phase == Begun
      requires mode == CronQueue ==> !cronMuHeld
      modifies this`running, this`cronMuHeld, this`ticks
      ensures Valid() && ticks == Moved(old(ticks), tick, if passed then Gated else Ungated, 0)
      ensures passed <==> mode != CronSkip || !old(running)
      ensures !passed && !gateReset ==> old(InGate(ticks)) != {}
      ensures forall g :: old(Over(g)) ==> Over(g)
      ensures old(Swept()) ==> Swept()
    {
      hide GateOk, OwnersOk, CountOk, OfGen, Moved;
      passed := mode != CronSkip || !running;
      GateEnter(mode == CronSkip && !gateReset, running, ticks, tick, passed);
      GateEnter(mode == CronQueue, cronMuHeld, ticks, tick, passed);
      if mode == CronSkip && passed { running := true; }
      if mode == CronQueue { cronMuHeld := true; }
      ghost var phase := if passed then Gated else Ungated;
      MoveCounts(ticks, tick, phase, 0, cronGen, cronActive);
      MoveOwners(ticks, tick, phase, 0, owners);
      ticks := Moved(ticks, tick, phase, 0);
    }

    /** The tick takes a fresh messenger owner and runs the user's Start under it. */
    method TakeOwner(ghost tick: nat, id: nat)
      requires Valid() && tick in ticks && ticks[tick].phase == Gated
      modifies this`owners, this`ticks
      ensures Valid() && owners == old(owners) + {id} && ticks == Moved(old(ticks), tick, Owning, id)
      ensures forall g :: old(Over(g)) ==> Over(g)
      ensures old(Swept()) ==> Swept()
    {
      MoveCounts(ticks, tick, Owning, id, cronGen, cronActive);
      MoveOwners(ticks, tick, Owning, id, owners);
      owners := owners + {id};
      ticks := Moved(ticks, tick, Owning, id);
      assert InGate(ticks) == old(InGate(ticks));
    }

    /** Start returned: the owner goes first. */
    method ReleaseOwner(ghost tick: nat, id: nat)
      requires Valid() && tick in ticks && ticks[tick].phase == Owning && ticks[tick].owner == id
      modifies this`owners, this`ticks
      ensures Valid() && owners == old(owners) - {id} && ticks == Moved(old(ticks), tick, Released, id)
      ensures forall g :: old(Over(g)) ==> Over(g)
      ensures old(Swept()) ==> Swept()
    {
      owners := owners - {id};
      MoveCounts(ticks, tick, Released, id, cronGen, cronActive);
      MoveOwners(ticks, tick, Released, id, owners);
      ticks := Moved(ticks, tick, Released, id);
      assert InGate(ticks) == old(InGate(ticks));
    }

    /** Then the gate; the end of the accounting comes last. */
    method LeaveGate(ghost tick: nat)
      requires Valid() && tick in ticks && ticks[tick].phase == Released
      modifies this`running, this`cronMuHeld, this`ticks
      ensures Valid() && ticks == Moved(old(ticks), tick, Ungated, 0)
      ensures forall g :: old(Over(g)) ==> Over(g)
      ensures old(Swept()) ==> Swept()
    {
      hide GateOk, OwnersOk, CountOk, OfGen, InGate, Moved;
      GateLeave(mode == CronSkip && !gateReset, running, ticks, tick);
      GateLeave(mode == CronQueue, cronMuHeld, ticks, tick);
      MoveCounts(ticks, tick, Ungated, 0, cronGen, cronActive);
      MoveOwners(ticks, tick, Ungated, 0, owners);
      if mode == CronSkip { running := false; }
      if mode == CronQueue { cronMuHeld := false; }
      ticks := Moved(ticks, tick, Ungated, 0);
    }

    /** drainService sweeps whatever owners are left. */
    method TakeOwners()
      requires Valid()
      modifies this`owners
      ensures Valid() && owners == {}
      ensures forall g :: old(Over(g)) ==> Over(g)
      ensures old(Swept()) ==> Swept()
    {
      owners := {};
    }

    /** Once the drain latch of a generation is closed, the generation is over. */
    lemma DrainedIsQuiet(latch: Latch)
      requires Valid() && latch in latches && latch.closed
      ensures Over(latches[latch]) && forall t :: t in ticks ==> ticks[t].gen != latches[latch]
    {
      var g := latches[latch];
      assert forall t :: t in ticks && ticks[t].gen == g ==> t in OfGen(ticks, g);
    }

    /** When the current generation is over, only a tick that outlived an earlier one can list an owner:
        without such a tick the entry is swept. */
    lemma OverOwnsNothing()
      requires Valid() && Over(cronGen)
      ensures forall id :: id in owners ==>
          exists t :: t in ticks && ticks[t].gen < cronGen && ticks[t].phase == Owning && ticks[t].owner == id
      ensures Swept() <==> ticks == map[]
    {
      forall id | id in owners
          ensures exists t :: t in ticks && ticks[t].gen < cronGen && ticks[t].phase == Owning && ticks[t].owner == id {
        var t :| t in ticks && ticks[t].phase == Owning && ticks[t].owner == id;
        assert t !in OfGen(ticks, cronGen);
      }
    }

    /** While the latch the drain returned is still open and the schedule was not replaced, a tick of
        its generation is in flight: nobody waits for nothing. */
    lemma OpenLatchIsAwaited(latch: Latch)
      requires Valid() && latch in latches && !latch.closed && latches[latch] == cronGen
      ensures cronActive > 0 && exists t :: t in ticks && ticks[t].gen == cronGen
    {
      assert OfGen(ticks, cronGen) != {};
    }

    /** In a serialising mode no two ticks are inside user code together. */
    lemma SerialTicks(s: nat, t: nat)
      requires Valid() && mode != CronParallel && (mode == CronSkip ==> !gateReset)
      requires s in ticks && t in ticks && ticks[s].phase == Owning && ticks[t].phase == Owning
      ensures s == t
    {
      assert s in InGate(ticks) && t in InGate(ticks);
    }
  }

  /** Without the condition of SerialTicks: an entry reset under a tick inside the gate, as a removal or a
      failed Start does, lets a second one in once it is scheduled again. */
  method ResetLetsTwoIn(parent: Context) returns (entry: CronEntry)
    requires !parent.cancelled
    ensures fresh(entry) && entry.Valid() && entry.mode == CronSkip && entry.gateReset
    ensures 1 in entry.ticks && entry.ticks[1].phase == Owning && 2 in entry.ticks && entry.ticks[2].phase == Owning
  {
    hide CountOk, OwnersOk, GateOk, CronEntry.LatchesOk;
    entry := new CronEntry(CronSkip);
    Enters(entry, parent, 1);
    assert 1 in InGate(entry.ticks);
    entry.ResetEntry();
    Enters(entry, parent, 2);
  }

  /** A schedule, and the first tick of it that gets into user code. */
  method Enters(entry: CronEntry, parent: Context, tick: nat)
    requires entry.Valid() && entry.mode == CronSkip && !entry.running && tick !in entry.ticks && !parent.cancelled
    requires entry.cronCtx == null
    modifies entry
    ensures entry.Valid() && entry.gateReset == old(entry.gateReset) && fresh(entry.cronCtx)
    ensures tick in entry.ticks && entry.ticks[tick].phase == Owning
    ensures forall t :: t in old(entry.ticks) ==> t in entry.ticks && entry.ticks[t] == old(entry.ticks)[t]
    ensures forall t :: t in entry.ticks ==> t == tick || t in old(entry.ticks)
  {
    hide CountOk, OwnersOk, GateOk, CronEntry.LatchesOk;
    var gen := entry.StartCronSchedule(parent);
    var begun := entry.CronBegin(gen, tick);
    var passed := entry.EnterGate(tick);
    entry.TakeOwner(tick, tick);
  }
}
