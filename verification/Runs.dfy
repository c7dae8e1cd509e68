/** What holds in every state of every run of the orchestrator. */
module Runs {
  import opened Registry
  import opened Lifecycle
  import opened LifecycleSafety
  import opened LifecycleShares
  import opened LifecycleRemovals
  import opened LifecycleIds
  import opened LifecycleSound
  import opened LifecycleEnds
  import opened LifecycleRetries
  import opened LifecycleVerdicts
  import opened LifecycleLimits
  import opened LifecycleExits
  import opened LifecycleAccounts
  import opened LifecycleStatus
  import opened Shutdown
  import opened Winddown

  function FoundAt(o: Orch, i: nat): Entry
    requires i < |o.entries|
  {
    if i < |o.found| then o.found[i] else o.entries[i]
  }

  /** Everything one entry keeps, alone and since Stop found it. */
  ghost predicate Keeps(phase: Phase, found: Entry, e: Entry) {
    && EntryOk(ContextDone(phase), e) && JobsOwned(phase, e)
    && (if ContextDone(phase) then SinceOk(found, e) && CalmOk(phase, found, e) else UpOk(e))
  }

  ghost predicate EntryInv(o: Orch, i: nat)
    requires i < |o.entries|
  {
    Keeps(o.phase, FoundAt(o, i), o.entries[i])
  }

  ghost predicate Inv(o: Orch) {
    && (forall i :: 0 <= i < |o.entries| ==> EntryInv(o, i))
    && o.wg == Total(o.entries) + B(o.health)
    && (ContextDone(o.phase) ==> !o.health && |o.found| == |o.entries|) && (!o.started ==> !o.health)
  }

  lemma DoOwned(phase: Phase, e: Entry, a: Action)
    requires JobsOwned(phase, e) && Can(e, a) && (a.Reserving? ==> a.t != STOP && Holds(a.op))
    ensures JobsOwned(phase, Do(e, ContextDone(phase), a))
  {
    hide NextJob, NextInstance, CanReserve;
    if a.Working? {
      SameOp(e, e.jobs[a.t], a.c);
      if a.t == STOP { NextStopAt(phase, e, e.jobs[STOP], a.c); }
    }
  }

  lemma NextStopAt(phase: Phase, e: Entry, j: Job, c: Choice)
    requires StopAt(phase, j) && j.op.ShutdownOp? && !j.stage.Return? && !j.stage.Hold?
    ensures StopAt(phase, NextJob(e, j, c))
  {
    hide NextStart;
  }

  lemma DoCalm(phase: Phase, found: Entry, e: Entry, a: Action)
    requires Sound(e) && CalmOk(phase, found, e) && JobsOwned(phase, e) && ContextDone(phase)
    requires Can(e, a) && !a.Reserving? && (a.Releasing? ==> a.t != STOP)
    ensures CalmOk(phase, found, Do(e, true, a))
  {
    hide Sound, SinceOk, CalmOk, JobsOwned, Work, Advance, ReleaseJob;
    SoundPoints(e);
    match a
    case Working(t, c) => WorkCalm(phase, found, e, t, c);
    case Advancing(k, c) => AdvanceCalm(phase, found, e, k, c);
    case Releasing(t) => ReleaseCalm(phase, found, e, t);
  }

  lemma SoundPoints(e: Entry)
    requires Sound(e)
    ensures Pointed(e.policy, e.instances)
  {
    hide Staged, Pointed, Linked, Tallied, Covered, Moored;
  }

  /** A step of its own keeps everything about an entry. */
  lemma DoKeeps(phase: Phase, found: Entry, e: Entry, a: Action)
    requires Keeps(phase, found, e) && Can(e, a)
    requires a.Reserving? ==> !ContextDone(phase) && a.t != STOP && Holds(a.op)
    requires a.Releasing? ==> a.t != STOP
    ensures Keeps(phase, found, Do(e, ContextDone(phase), a))
  {
    hide Reserved, Sound, Kept, JobsOwned, SinceOk, CalmOk, UpOk, Do, Can;
    DoOk(ContextDone(phase), e, a);
    DoOwned(phase, e, a);
    if ContextDone(phase) {
      DoSince(found, e, a);
      DoCalm(phase, found, e, a);
    } else {
      OwnedHold(phase, e);
      DoUp(e, a);
    }
  }

  lemma OwnedHold(phase: Phase, e: Entry)
    requires JobsOwned(phase, e) && !ContextDone(phase)
    ensures AllHold(e) && STOP !in e.jobs
  {
  }

  lemma KeepsSound(phase: Phase, found: Entry, e: Entry)
    requires Keeps(phase, found, e)
    ensures Reserved(e) && Sound(e) && JobsOwned(phase, e) && (!e.raced ==> Shaped(e) && Shares(e))
  {
    hide Reserved, Sound, Shaped, Budgeted, AllReportOnce, Trials, Departs, IdsOk, ShowsExit, Accounted, Leaves,
         Limits, OwnersHeld, Honest, Ends, Drained, SinceOk, CalmOk, UpOk, JobsOwned;
  }

  lemma LocalInv(o: Orch, m: Turn)
    requires Inv(o) && CanTake(o, m) && m.Local?
    ensures Inv(Take(o, m))
  {
    hide Keeps, Do, Can, Total;
    var e, p := o.entries[m.i], Take(o, m);
    assert EntryInv(o, m.i);
    DoKeeps(o.phase, FoundAt(o, m.i), e, m.a);
    TotalUpdate(o.entries, m.i, p.entries[m.i]);
    forall i | 0 <= i < |p.entries| ensures EntryInv(p, i) {
      assert EntryInv(o, i);
      UpForgets(o.phase, FoundAt(o, i), FoundAt(p, i), p.entries[i]);
    }
  }

  /** Before the context is cancelled, what Stop will find does not matter. */
  lemma UpForgets(phase: Phase, found: Entry, other: Entry, e: Entry)
    requires Keeps(phase, found, e) && (found == other || !ContextDone(phase))
    ensures Keeps(phase, other, e)
  {
    hide EntryOk, JobsOwned, SinceOk, CalmOk, UpOk;
  }

  /** While the orchestrator is up, its phase does not matter either. */
  lemma UpKeeps(phase: Phase, next: Phase, found: Entry, other: Entry, e: Entry)
    requires Keeps(phase, found, e) && !ContextDone(phase) && !ContextDone(next)
    ensures Keeps(next, other, e)
  {
    hide EntryOk, SinceOk, CalmOk, UpOk;
  }

  lemma FreshKeeps(found: Entry, policy: Policy)
    requires policy.factory ==> policy.kind.Persistent?
    ensures Keeps(Up, found, Fresh(policy))
  {
    FreshOk(false, policy);
    hide EntryOk;
  }

  lemma RegisterInv(o: Orch, policy: Policy)
    requires Inv(o) && CanTake(o, Register(policy))
    ensures Inv(Take(o, Register(policy)))
  {
    hide Keeps;
    var p := Take(o, Register(policy));
    assert p.entries[..|o.entries|] == o.entries;
    forall i | 0 <= i < |p.entries| ensures EntryInv(p, i) {
      if i < |o.entries| {
        assert EntryInv(o, i);
        UpKeeps(o.phase, p.phase, FoundAt(o, i), FoundAt(p, i), o.entries[i]);
      } else {
        FreshKeeps(FoundAt(p, i), policy);
      }
    }
  }

  lemma BeginInv(o: Orch, m: Turn)
    requires Inv(o) && CanTake(o, m) && (m.BeginStop? || m.Boot?)
    ensures Inv(Take(o, m))
  {
    hide Keeps, Total;
    var p := Take(o, m);
    forall i | 0 <= i < |p.entries| ensures EntryInv(p, i) {
      assert EntryInv(o, i);
      UpKeeps(o.phase, p.phase, FoundAt(o, i), FoundAt(p, i), o.entries[i]);
    }
  }

  lemma ReserveKeeps(phase: Phase, found: Entry, e: Entry, t: nat, op: Op)
    requires Keeps(phase, found, e) && !ContextDone(phase) && t != STOP && t !in e.jobs && CanReserve(e, op)
    requires Holds(op)
    ensures Keeps(phase, found, Reserve(e, t, op))
  {
    hide Keeps, Reserve;
    assert Do(e, false, Reserving(t, op)) == Reserve(e, t, op);
    DoKeeps(phase, found, e, Reserving(t, op));
  }

  lemma ClaimInv(o: Orch, t: nat, ops: map<nat, Op>)
    requires Inv(o) && CanTake(o, Claim(t, ops))
    ensures Inv(Take(o, Claim(t, ops)))
  {
    hide Keeps, Total;
    var p := Take(o, Claim(t, ops));
    forall i | 0 <= i < |p.entries| ensures EntryInv(p, i) && p.entries[i].share == o.entries[i].share {
      assert EntryInv(o, i);
      if i in ops { ReserveKeeps(o.phase, FoundAt(o, i), o.entries[i], t, ops[i]); }
      UpForgets(o.phase, FoundAt(o, i), FoundAt(p, i), p.entries[i]);
    }
    TotalSame(o.entries, p.entries);
  }

  lemma ReleaseKeeps(phase: Phase, found: Entry, e: Entry, t: nat)
    requires Keeps(phase, found, e) && CanRelease(e, t) && t != STOP
    ensures Keeps(phase, found, ReleaseJob(e, t))
  {
    hide Keeps, ReleaseJob;
    assert Do(e, ContextDone(phase), Releasing(t)) == ReleaseJob(e, t);
    DoKeeps(phase, found, e, Releasing(t));
  }

  lemma ReturnInv(o: Orch, t: nat)
    requires Inv(o) && CanTake(o, Turn.Return(t))
    ensures Inv(Take(o, Turn.Return(t)))
  {
    hide Keeps, Total;
    var p := Take(o, Turn.Return(t));
    forall i | 0 <= i < |p.entries| ensures EntryInv(p, i) && p.entries[i].share == o.entries[i].share {
      assert EntryInv(o, i);
      if t in o.entries[i].jobs { ReleaseKeeps(o.phase, FoundAt(o, i), o.entries[i], t); }
      UpForgets(o.phase, FoundAt(o, i), FoundAt(p, i), p.entries[i]);
    }
    TotalSame(o.entries, p.entries);
  }

  /** Stop cancels the context and takes the entry over. */
  lemma WindKeeps(phase: Phase, found: Entry, e: Entry)
    requires Keeps(phase, found, e) && !ContextDone(phase)
    ensures Keeps(Winding, e, Overtake(e))
  {
    hide EntryOk, SinceOk, UpOk, CalmOk;
    CancelledOk(e);
    OwnedHold(phase, e);
    WindSince(e);
    if !e.removed { WindOk(e); }
    WindCalm(e);
    WindOwned(phase, e);
  }

  lemma WindInv(o: Orch)
    requires Inv(o) && CanTake(o, Wind)
    ensures Inv(Take(o, Wind))
  {
    hide Keeps, Total;
    var p := Take(o, Wind);
    forall i | 0 <= i < |p.entries| ensures EntryInv(p, i) && p.entries[i].share == o.entries[i].share {
      assert EntryInv(o, i);
      WindKeeps(o.phase, FoundAt(o, i), o.entries[i]);
    }
    TotalSame(o.entries, p.entries);
  }

  /** Stop finds the entry gone and lets go of it. */
  lemma MissKeeps(found: Entry, e: Entry)
    requires Keeps(Winding, found, e) && STOP in e.jobs && CanRelease(e, STOP)
    ensures Keeps(Winding, found, ReleaseJob(e, STOP))
  {
    hide EntryOk, SinceOk, CalmOk;
    LeaveOk(found, e);
    MissCalm(found, e);
  }

  lemma MissInv(o: Orch, m: Turn)
    requires Inv(o) && CanTake(o, m) && m.Miss?
    ensures Inv(Take(o, m))
  {
    hide Keeps, Total, CanRelease, ReleaseJob;
    var p := Take(o, m);
    assert EntryInv(o, m.i);
    MissKeeps(FoundAt(o, m.i), o.entries[m.i]);
    ReleaseShare(o.entries[m.i]);
    TotalUpdate(o.entries, m.i, p.entries[m.i]);
    forall i | 0 <= i < |p.entries| ensures EntryInv(p, i) { assert EntryInv(o, i); }
  }

  lemma ReleaseShare(e: Entry)
    requires STOP in e.jobs
    ensures ReleaseJob(e, STOP).share == e.share
  {
  }

  lemma {:induction false} TotalNonNegative(entries: seq<Entry>)
    requires forall i :: 0 <= i < |entries| ==> entries[i].share >= 0
    ensures Total(entries) >= 0
    ensures Total(entries) == 0 ==> forall i :: 0 <= i < |entries| ==> entries[i].share == 0
  {
    if entries != [] { TotalNonNegative(entries[..|entries| - 1]); }
  }

  lemma SharesNonNegative(o: Orch)
    requires Inv(o)
    ensures forall i :: 0 <= i < |o.entries| ==> o.entries[i].share >= 0
  {
    hide Keeps;
    forall i | 0 <= i < |o.entries| ensures o.entries[i].share >= 0 {
      assert EntryInv(o, i);
      KeepsSound(o.phase, FoundAt(o, i), o.entries[i]);
    }
  }

  /** An empty wait group settles every entry. */
  lemma EmptySettles(o: Orch)
    requires Inv(o) && o.wg == 0 && !o.health
    ensures forall i :: 0 <= i < |o.entries| ==> AllSettled(o.entries[i].instances) && o.entries[i].share == 0
  {
    hide Keeps, Total;
    SharesNonNegative(o);
    TotalNonNegative(o.entries);
    forall i | 0 <= i < |o.entries| ensures AllSettled(o.entries[i].instances) {
      assert EntryInv(o, i);
      KeepsSound(o.phase, FoundAt(o, i), o.entries[i]);
      ShareZeroSettles(o.entries[i]);
    }
  }

  /** The wait is over: with the wait group empty, the entry goes on to its commit. */
  lemma WaitKeeps(found: Entry, e: Entry)
    requires Keeps(Winding, found, e) && Held(e) && AllSettled(e.instances) && e.share == 0
    ensures Keeps(Waited, found, Resume(e, true))
  {
    hide EntryOk, SinceOk, UpOk, CalmOk, AllSettled, JobsOwned;
    ResumeOk(e, true);
    WaitOwned(e);
    ResumeSince(found, e, true);
    WaitCalm(found, e);
  }

  lemma HeldAt(o: Orch, i: nat)
    requires i < |o.entries| && EntryInv(o, i) && ContextDone(o.phase) && StopsAt(o.entries, Hold)
    ensures Held(o.entries[i])
  {
    hide EntryOk, SinceOk, CalmOk;
  }

  lemma WaitInv(o: Orch)
    requires Inv(o) && CanTake(o, Wait)
    ensures Inv(Take(o, Wait))
  {
    hide Keeps, Total, AllSettled, Held, StopsAt;
    var p := Take(o, Wait);
    EmptySettles(o);
    forall i | 0 <= i < |p.entries| ensures EntryInv(p, i) && p.entries[i].share == o.entries[i].share {
      assert EntryInv(o, i);
      HeldAt(o, i);
      WaitKeeps(FoundAt(o, i), o.entries[i]);
    }
    TotalSame(o.entries, p.entries);
  }

  lemma FinishKeeps(failed: bool, found: Entry, e: Entry)
    requires Keeps(Waited, found, e)
    requires STOP in e.jobs ==> e.jobs[STOP].stage == Stage.Return && (!failed ==> !e.jobs[STOP].failed)
    ensures Keeps(Down(failed), found, Leave(e))
  {
    hide EntryOk, SinceOk, JobsOwned, CalmOk, Leave;
    LeaveOk(found, e);
    LeaveOwned(Waited, failed, e);
    FinishCalm(failed, found, e);
  }

  lemma FinishInv(o: Orch)
    requires Inv(o) && CanTake(o, Finish)
    ensures Inv(Take(o, Finish))
  {
    hide Keeps, Total;
    var p := Take(o, Finish);
    forall i | 0 <= i < |p.entries| ensures EntryInv(p, i) && p.entries[i].share == o.entries[i].share {
      assert EntryInv(o, i);
      FinishKeeps(StopFailed(o.entries), FoundAt(o, i), o.entries[i]);
    }
    TotalSame(o.entries, p.entries);
  }

  lemma TimeOutKeeps(found: Entry, e: Entry)
    requires Keeps(Winding, found, e) && Held(e)
    ensures Keeps(Down(true), found, Leave(e)) && Leave(Resume(e, false)) == Leave(e)
  {
    hide EntryOk, SinceOk, JobsOwned, CalmOk, Leave, UpOk;
    ResumeOk(e, false);
    ResumeSince(found, e, false);
    LeaveOk(found, Resume(e, false));
    LeaveOwned(Winding, true, e);
    LeaveAnyway(e);
    TimeOutCalm(found, e);
  }

  lemma TimeOutInv(o: Orch)
    requires Inv(o) && CanTake(o, TimeOut)
    ensures Inv(Take(o, TimeOut))
  {
    hide Keeps, Total, Held, StopsAt;
    var p := Take(o, TimeOut);
    forall i | 0 <= i < |p.entries| ensures EntryInv(p, i) && p.entries[i].share == o.entries[i].share {
      assert EntryInv(o, i);
      HeldAt(o, i);
      TimeOutKeeps(FoundAt(o, i), o.entries[i]);
    }
    TotalSame(o.entries, p.entries);
  }

  lemma TurnInv(o: Orch, m: Turn)
    requires Inv(o) && CanTake(o, m)
    ensures Inv(Take(o, m))
  {
    hide EntryInv, Take, CanTake, Total;
    match m
    case Register(policy) => RegisterInv(o, policy);
    case Boot(_) => BeginInv(o, m);
    case Claim(t, ops) => ClaimInv(o, t, ops);
    case Return(t) => ReturnInv(o, t);
    case Local(_, _) => LocalInv(o, m);
    case BeginStop => BeginInv(o, m);
    case Wind => WindInv(o);
    case Miss(_) => MissInv(o, m);
    case Wait => WaitInv(o);
    case TimeOut => TimeOutInv(o);
    case Finish => FinishInv(o);
  }

  lemma InitInv()
    ensures Inv(Init())
  {
  }

  /** The invariant holds in every state of every execution. */
  lemma {:induction false} RunInv(run: seq<Orch>, turns: seq<Turn>, k: nat)
    requires Execution(run, turns) && k < |run|
    ensures Inv(run[k])
  {
    hide Inv, Take, CanTake, Init;
    if k == 0 {
      InitInv();
    } else {
      RunInv(run, turns, k - 1);
      TurnInv(run[k - 1], turns[k - 1]);
    }
  }
}
