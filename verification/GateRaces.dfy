/** A gate that something in flight could still bring up when Stop cancels is a gate that Stop can lose. */
module GateRaces {
  import opened Services
  import opened Registry
  import opened Lifecycle
  import opened LifecycleFlow
  import opened LifecycleSafety
  import opened LifecycleRemovals
  import opened LifecycleIds
  import opened LifecycleSound
  import opened LifecycleEnds
  import opened LifecycleRetries
  import opened LifecycleVerdicts
  import opened LifecycleLimits
  import opened LifecycleExits
  import opened LifecycleAccounts
  import opened LifecycleGates
  import opened LifecycleStatus
  import opened Shutdown
  import opened Winddown
  import opened Runs
  import opened Races
  import opened StopRaces

  function GateRank(stage: Stage): nat {
    match stage
    case Guard => 10
    case Hook => 9
    case Own => 8
    case Arm => 7
    case Run => 6
    case Count => 5
    case Gate => 4
    case Ungate => 3
    case Settle => 2
    case Bless => 1
    case _ => 0
  }

  /** A start of a gate that can still succeed. */
  predicate Promising(j: Job) {
    GateRank(j.stage) > 0 && (j.stage.Ungate? || j.stage.Settle? ==> !j.failed)
  }

  predicate Preparing(stage: Stage) {
    stage.Validate? || stage.Cancel? || stage.Watch?
  }

  /** What an operation looks like that may still bring the gate up, and the gate under it. */
  lemma GateInFlight(e: Entry, t: nat)
    requires Reserved(e) && Kept(false, e) && GateSeen(e) && e.policy.kind.RunOnce? && t in e.jobs
    requires !Fruitless(e.jobs[t])
    ensures !e.removed && !e.removing && e.instances == [] && e.done.None? && HoldsStarting(e.jobs[t].op)
    ensures || (Promising(e.jobs[t]) && (Rising(e.jobs[t].stage) ==> e.status != Succeeded))
            || (e.jobs[t].op.ReplaceOp? && (Preparing(e.jobs[t].stage) || GoesThrough(e, e.jobs[t])))
  {
    hide OneActs, Tethered, LifecycleShares.Shares, LifecycleRetries.Budgeted, LifecycleRetries.AllReportOnce, Trials,
         Departs, IdsOk, LifecycleRetries.ShowsExit, Accounted, Leaves, Limits, LifecycleStatus.OwnersHeld,
         LifecycleStatus.Honest, Ends;
    var j := e.jobs[t];
    assert Fits(e, j);
    assert j.stage.Wipe? || j.stage.Rewind? ==> WentWell(j);
  }

  lemma NextGate(e: Entry, j: Job)
    requires Promising(j) && e.policy.kind.RunOnce? && !e.removed && !e.removing
    ensures var y := NextStart(e, j, FINE);
      GateRank(y.stage) == GateRank(j.stage) - 1 && (!j.stage.Bless? ==> Promising(y))
  {
  }

  lemma GateStep(s: Entry, t: nat)
    requires t in s.jobs && Promising(s.jobs[t]) && s.policy.kind.RunOnce? && !s.removed && !s.removing
    ensures var f, j := Work(s, t, FINE), s.jobs[t];
      && CanWork(s, t, FINE) && SameFlags(s, f) && SameOthers(s, f, t)
      && GateRank(f.jobs[t].stage) == GateRank(j.stage) - 1
      && (if j.stage.Bless? then f.status == Succeeded else Promising(f.jobs[t]))
      && (j.stage.Hook? ==> f.status == Starting)
  {
    hide NextStart, NextStop;
    NextGate(s, s.jobs[t]);
  }

  /** A runOnce start gets past its first status. */
  lemma {:induction false} RiseLeads(e: Entry, s: Entry, t: nat) returns (f: Entry)
    requires Leads(true, e, s) && t in s.jobs && Promising(s.jobs[t]) && s.policy.kind.RunOnce? && !s.removed
    requires !s.removing
    requires Rising(s.jobs[t].stage) ==> s.status != Succeeded
    ensures Leads(true, e, f) && SameFlags(s, f) && SameOthers(s, f, t) && Promising(f.jobs[t])
    ensures Rising(f.jobs[t].stage)
    ensures f.status != Succeeded
    decreases GateRank(s.jobs[t].stage)
  {
    hide Leads, Work, CanWork;
    f := s;
    if !Rising(s.jobs[t].stage) {
      GateStep(s, t);
      f := WorkOn(true, e, s, t);
      f := RiseLeads(e, f, t);
    }
  }

  /** It then succeeds, while the other operations stay where they are. */
  lemma {:induction false} BlessLeads(e: Entry, s: Entry, t: nat) returns (f: Entry)
    requires Leads(true, e, s) && t in s.jobs && Promising(s.jobs[t]) && s.policy.kind.RunOnce? && !s.removed
    requires !s.removing
    ensures Leads(true, e, f) && SameFlags(s, f) && SameOthers(s, f, t) && f.status == Succeeded
    decreases GateRank(s.jobs[t].stage)
  {
    hide Leads, Work, CanWork, Promising;
    GateStep(s, t);
    f := WorkOn(true, e, s, t);
    if !s.jobs[t].stage.Bless? { f := BlessLeads(e, f, t); }
  }

  lemma PrepareFrame(s: Entry, t: nat)
    requires t in s.jobs && Preparing(s.jobs[t].stage)
    ensures var f := Work(s, t, FINE);
      && CanWork(s, t, FINE) && SameOthers(s, f, t) && f.policy == s.policy && f.removed == s.removed
      && f.removing == s.removing && f.instances == s.instances && f.done == s.done
      && f.jobs[t] == NextStop(s, s.jobs[t], FINE)
  {
    hide NextStart, NextStop;
  }

  lemma PrepareNext(e: Entry, j: Job)
    requires Preparing(j.stage) && j.op.ReplaceOp? && e.done.None? && e.policy.kind.RunOnce?
    ensures var y := NextStop(e, j, FINE);
      && y.op == j.op && (if j.stage.Watch? then GoesThrough(e, y)
                          else Preparing(y.stage) && StopRank(y.stage) < StopRank(j.stage))
  {
  }

  lemma PrepareGate(s: Entry, t: nat)
    requires t in s.jobs && Preparing(s.jobs[t].stage) && s.jobs[t].op.ReplaceOp? && s.done.None? && s.instances == []
    requires s.policy.kind.RunOnce?
    ensures var f, j := Work(s, t, FINE), s.jobs[t];
      && CanWork(s, t, FINE) && SameOthers(s, f, t) && f.policy == s.policy && f.removed == s.removed
      && f.removing == s.removing
      && f.jobs[t].op == j.op && f.instances == [] && f.done.None?
      && (if j.stage.Watch? then GoesThrough(f, f.jobs[t])
           else Preparing(f.jobs[t].stage) && StopRank(f.jobs[t].stage) < StopRank(j.stage))
  {
    hide Work, CanWork, NextStop, Preparing, SameOthers, GoesThrough;
    PrepareFrame(s, t);
    PrepareNext(s, s.jobs[t]);
    StillThrough(s, Work(s, t, FINE), NextStop(s, s.jobs[t], FINE));
  }

  /** A replacement of a gate stops it and starts it anew. */
  lemma {:induction false} ReplaceLeads(e: Entry, s: Entry, t: nat) returns (f: Entry)
    requires Leads(true, e, s) && t in s.jobs && s.jobs[t].op.ReplaceOp? && s.policy.kind.RunOnce? && !s.removed
    requires !s.removing
    requires s.instances == [] && s.done.None? && (Preparing(s.jobs[t].stage) || GoesThrough(s, s.jobs[t]))
    ensures Leads(true, e, f) && SameOthers(s, f, t) && f.policy == s.policy && f.removed == s.removed
    ensures f.removing == s.removing
    ensures f.jobs[t].stage.Guard?
    decreases StopRank(s.jobs[t].stage)
  {
    hide Leads, Work, CanWork, GoesThrough;
    if Preparing(s.jobs[t].stage) {
      PrepareGate(s, t);
      f := WorkOn(true, e, s, t);
      if s.jobs[t].stage.Watch? {
        f := StopLeads(true, e, f, t);
      } else {
        f := ReplaceLeads(e, f, t);
      }
    } else {
      f := StopLeads(true, e, s, t);
    }
  }

  /** Stop's job joins; the operation goes on until the gate rises, Stop samples it, and it succeeds. */
  lemma GateLeads(e: Entry, t: nat) returns (f: Entry)
    requires Reserved(e) && Kept(false, e) && GateSeen(e) && e.policy.kind.RunOnce? && t in e.jobs
    requires !Fruitless(e.jobs[t])
    requires STOP !in e.jobs
    ensures !e.removed && Leads(true, Reserve(e, STOP, ShutdownOp), f) && f.status == Succeeded
    ensures STOP in f.jobs && f.jobs[STOP].op.ShutdownOp? && f.jobs[STOP].stage.Mark?
    ensures f.jobs[STOP].sampled != Succeeded
  {
    hide Leads, Work, CanWork, Reserved, Kept, GateSeen, Fruitless, Promising, GoesThrough;
    GateInFlight(e, t);
    var s := Reserve(e, STOP, ShutdownOp);
    StillThrough(e, s, e.jobs[t]);
    Stay(true, s);
    f := s;
    if e.jobs[t].op.ReplaceOp? && (Preparing(e.jobs[t].stage) || GoesThrough(e, e.jobs[t])) {
      f := ReplaceLeads(s, f, t);
      GuardPromises(f.jobs[t]);
    }
    f := RiseLeads(s, f, t);
    SweepStep(f, STOP);
    f := WorkOn(true, s, f, STOP);
    f := BlessLeads(s, f, t);
  }

  lemma GuardPromises(j: Job)
    requires j.stage.Guard?
    ensures Promising(j) && !Rising(j.stage)
  {
  }

  lemma StillThrough(e: Entry, s: Entry, j: Job)
    requires s.policy == e.policy && s.instances == e.instances
    ensures GoesThrough(s, j) <==> GoesThrough(e, j)
  {
  }

  /** From every state in which Stop is about to cancel: if anything in flight could still bring a gate up,
      there is an execution in which the gate succeeds and Stop then marks it Stopping. */
  lemma StopLosesGate(o: Orch, i: nat) returns (p: Orch)
    requires Reachable(o) && o.phase.Ending? && i < |o.entries| && o.entries[i].policy.kind.RunOnce?
    requires !AllFruitless(o.entries[i])
    ensures From(o, p) && p.found == o.entries && |p.entries| == |o.entries| && p.entries[i].status == Succeeded
    ensures var m := Local(i, Working(STOP, FINE));
      CanTake(p, m) && Take(p, m).entries[i].status == Stopping && STOP in p.entries[i].jobs &&
          !IsStart(p.entries[i].jobs[STOP].stage)
  {
    hide From, Leads, Reachable, Fruitless, GateSeen, Kept, Work, CanWork, Reserved, Reserve;
    var e := o.entries[i];
    GateUp(o, i);
    var t :| t in e.jobs && !Fruitless(e.jobs[t]);
    StayAt(o);
    p := Go(o, o, Wind);
    var f := GateLeads(e, t);
    p := Lift(o, p, i, f);
    MarkLoses(p, i);
  }

  lemma MarkLoses(o: Orch, i: nat)
    requires o.phase.Winding? && i < |o.entries| && STOP in o.entries[i].jobs
    requires o.entries[i].jobs[STOP].stage.Mark? && o.entries[i].jobs[STOP].sampled != Succeeded
    ensures var m := Local(i, Working(STOP, FINE)); CanTake(o, m) && Take(o, m).entries[i].status == Stopping
  {
    hide Work, CanWork;
    SweepStep(o.entries[i], STOP);
  }

  lemma GateUp(o: Orch, i: nat)
    requires Reachable(o) && o.phase.Ending? && i < |o.entries| && o.entries[i].policy.kind.RunOnce?
    ensures var e := o.entries[i]; Reserved(e) && Kept(false, e) && GateSeen(e) && STOP !in e.jobs
  {
    hide From, Reserved, Sound, Kept, AllReportOnce, Trials, Departs, IdsOk, OwnersHeld, GateSeen, SinceOk, CalmOk;
    ReachableInv(o);
    assert EntryInv(o, i);
  }

  /** It does happen: a first start is enough. */
  lemma RacingStopLosesGate(policy: Policy) returns (p: Orch)
    requires policy.kind.RunOnce? && !policy.factory
    ensures Reachable(p) && |p.entries| == 1 && p.entries[0].status == Succeeded
    ensures var m := Local(0, Working(STOP, FINE)); CanTake(p, m) && Take(p, m).entries[0].status == Stopping
  {
    hide From;
    var o := RegistersFresh(policy);
    o := Claims(o, 1, StartOp);
    assert 1 in o.entries[0].jobs && !Fruitless(o.entries[0].jobs[1]);
    o := Go(Init(), o, BeginStop);
    p := StopLosesGate(o, 0);
    FromTrans(Init(), o, p);
  }
}
