/** What holds in every state of every execution, entry by entry and for the whole orchestrator. */
module Guarantees {
  import opened Services
  import opened Lifecycle
  import opened LifecycleFlow
  import opened LifecycleSafety
  import opened LifecycleShares
  import opened LifecycleRemovals
  import opened LifecycleIds
  import opened LifecycleSound
  import opened LifecycleEnds
  import opened LifecycleStops
  import opened LifecycleCredits
  import opened LifecycleRetries
  import opened LifecycleVerdicts
  import opened LifecycleLimits
  import opened LifecycleExits
  import opened LifecycleAccounts
  import opened LifecycleGates
  import opened LifecycleStatus
  import opened LifecycleAborts
  import opened Shutdown
  import opened StopCredits
  import opened Winddown
  import opened Runs

  /** In every execution, at most one operation holds an entry, never a start and a stop together, and its
      flags say which. */
  lemma OneHolder(run: seq<Orch>, turns: seq<Turn>, n: nat, i: nat)
    requires Execution(run, turns) && n < |run| && i < |run[n].entries|
    ensures var e := run[n].entries[i];
      && (forall s, t :: s in e.jobs && t in e.jobs && Holds(e.jobs[s].op) && Holds(e.jobs[t].op) ==> s == t)
      && !(e.starting && e.removing)
      && (e.starting <==> exists t :: t in e.jobs && HoldsStarting(e.jobs[t].op))
      && (e.removing <==> exists t :: t in e.jobs && HoldsRemoving(e.jobs[t].op))
  {
    hide Kept, SinceOk, CalmOk, UpOk, JobsOwned;
    RunInv(run, turns, n);
    assert EntryInv(run[n], i);
  }

  /** An operation that returned holds nothing any more: its job is gone everywhere and so are its flags. */
  lemma ReturnReleases(run: seq<Orch>, turns: seq<Turn>, n: nat, t: nat, i: nat)
    requires Execution(run, turns) && n < |turns| && turns[n] == Turn.Return(t) && i < |run[n].entries|
    ensures var e, f := run[n].entries[i], run[n + 1].entries[i];
      && t !in f.jobs
      && (t in e.jobs && Holds(e.jobs[t].op) ==> !f.starting && !f.removing)
      && (t !in e.jobs ==> f == e)
  {
    hide Kept, SinceOk, CalmOk, UpOk, JobsOwned, Reserved, CanRelease;
    RunInv(run, turns, n);
    assert EntryInv(run[n], i) && CanTake(run[n], turns[n]);
    if t in run[n].entries[i].jobs { ReleaseReserved(run[n].entries[i], t); }
  }

  /** An operation that returned leaves the entry removed if it is an Unregister, and registered otherwise. */
  lemma OnlyUnregisterRemoves(run: seq<Orch>, turns: seq<Turn>, n: nat, t: nat, i: nat)
    requires Execution(run, turns) && n < |turns| && turns[n] == Turn.Return(t) && i < |run[n].entries|
    requires t in run[n].entries[i].jobs
    ensures var op := run[n].entries[i].jobs[t].op;
      run[n + 1].entries[i].removed <==> op.TearDownOp? && op.remove
  {
    hide Reserved, Sound, Kept, AllReportOnce, Trials, OwnersHeld, SinceOk, CalmOk, UpOk, Inv;
    RunInv(run, turns, n);
    assert EntryInv(run[n], i) by { EntryAt(run[n], i); }
    assert CanTake(run[n], turns[n]) && run[n + 1] == Take(run[n], turns[n]);
  }

  lemma EntryAt(o: Orch, i: nat)
    requires Inv(o) && i < |o.entries|
    ensures EntryInv(o, i)
  {
    hide Keeps;
  }

  /** What every entry keeps, and what one keeps that no replacement was late on. */
  lemma EntryKeeps(run: seq<Orch>, turns: seq<Turn>, n: nat, i: nat)
    requires Execution(run, turns) && n < |run| && i < |run[n].entries|
    ensures EntryOk(ContextDone(run[n].phase), run[n].entries[i])
  {
    hide EntryOk, SinceOk, CalmOk, UpOk, JobsOwned;
    RunInv(run, turns, n);
    assert EntryInv(run[n], i);
  }

  /** Every replacement of a self-healing service that came in time has left one live instance at most,
      with the one share of the wait group it has a right to. */
  lemma OneInstance(run: seq<Orch>, turns: seq<Turn>, n: nat, i: nat)
    requires Execution(run, turns) && n < |run| && i < |run[n].entries| && !run[n].entries[i].raced
    ensures var e := run[n].entries[i]; |LiveEras(e)| <= 1 && e.share == |LiveEras(e)| + B(Enrolled(e.jobs))
  {
    hide Shaped, Shares, Sound, Budgeted, AllReportOnce, Trials, Departs, IdsOk, ShowsExit, Accounted, Leaves, Limits,
         OwnersHeld, Honest, Ends, Drained, Reserved;
    EntryKeeps(run, turns, n, i);
    ShareIsLiveEras(run[n].entries[i]);
  }

  /** Claimed at rest, an entry that was replaced too late is raced no more. */
  lemma RestRecovers(run: seq<Orch>, turns: seq<Turn>, n: nat, t: nat, ops: map<nat, Op>, i: nat)
    requires Execution(run, turns) && n < |turns| && turns[n] == Claim(t, ops) && i < |run[n].entries| && i in ops
    requires AtRest(run[n].entries[i])
    ensures i < |run[n + 1].entries| && !run[n + 1].entries[i].raced
  {
    hide CanReserve;
    assert CanTake(run[n], turns[n]) && run[n + 1] == Take(run[n], turns[n]);
  }

  /** At rest nothing is left behind: with no operation on an entry and every instance closed, it lists no
      owner; and before a Stop, a service without a factory that says it is up has an instance that will
      still decide its status. */
  lemma RestIsHonest(run: seq<Orch>, turns: seq<Turn>, n: nat, i: nat)
    requires Execution(run, turns) && n < |run| && i < |run[n].entries| && run[n].entries[i].jobs == map[]
    ensures var e := run[n].entries[i];
      && ((forall k :: 0 <= k < |e.instances| ==> e.instances[k].at == Closed) ==> e.owners == {})
      && (!ContextDone(run[n].phase) && !e.policy.factory && e.policy.kind.Persistent? && Active(e.status) ==>
            |e.instances| > 0 && Undecided(e.instances[|e.instances| - 1].at))
  {
    hide Reserved, Sound, Shaped, Shares, Budgeted, AllReportOnce, Trials, Departs, IdsOk, ShowsExit, Accounted,
         Leaves, Limits, Ends, Drained, OwnersHeld;
    EntryKeeps(run, turns, n, i);
    var e := run[n].entries[i];
    if forall k :: 0 <= k < |e.instances| ==> e.instances[k].at == Closed { RestOwnsNothing(e); }
  }

  /** The live eras of all entries, and the starts about to have one. */
  ghost function Eras(entries: seq<Entry>): nat {
    if entries == [] then 0
    else Eras(entries[..|entries| - 1]) + |LiveEras(entries[|entries| - 1])| + B(Enrolled(entries[|entries| - 1].jobs))
  }

  lemma {:induction false} ErasAreShares(entries: seq<Entry>)
    requires forall i :: 0 <= i < |entries| ==> Shaped(entries[i]) && Shares(entries[i])
    ensures Total(entries) == Eras(entries)
  {
    hide Shaped, Shares;
    if entries != [] {
      ErasAreShares(entries[..|entries| - 1]);
      ShareIsLiveEras(entries[|entries| - 1]);
    }
  }

  lemma {:induction false} ErasAreCovered(entries: seq<Entry>)
    requires forall i :: 0 <= i < |entries| ==> Sound(entries[i])
    ensures Total(entries) >= Eras(entries)
  {
    hide Sound;
    if entries != [] {
      var last := entries[|entries| - 1];
      ErasAreCovered(entries[..|entries| - 1]);
      EntryCovers(last);
      ErasAreCounted(last.instances, LiveEras(last));
    }
  }

  lemma EntryCovers(e: Entry)
    requires Sound(e)
    ensures e.share >= CountAt(e.instances, HoldsShare) + B(Enrolled(e.jobs))
  {
    hide CountAt, Staged, Pointed, Linked, Tallied, Moored, Enrolled;
  }

  /** No entry has seen a replacement that came too late. */
  predicate AllUnraced(entries: seq<Entry>) {
    forall i :: 0 <= i < |entries| ==> !entries[i].raced
  }

  /** The wait group never underflows and covers the live eras and the health loop; it counts exactly them as
      long as no entry is raced. */
  lemma WaitGroupIsLiveEras(run: seq<Orch>, turns: seq<Turn>, n: nat)
    requires Execution(run, turns) && n < |run|
    ensures run[n].wg >= Eras(run[n].entries) + B(run[n].health) >= 0
    ensures AllUnraced(run[n].entries) ==> run[n].wg == Eras(run[n].entries) + B(run[n].health)
  {
    hide Sound, Shaped, Shares, Keeps, Total, Eras;
    RunInv(run, turns, n);
    var o := run[n];
    forall i | 0 <= i < |o.entries|
      ensures Sound(o.entries[i]) && (!o.entries[i].raced ==> Shaped(o.entries[i]) && Shares(o.entries[i]))
    {
      assert EntryInv(o, i);
      KeepsSound(o.phase, FoundAt(o, i), o.entries[i]);
    }
    ErasAreCovered(o.entries);
    if AllUnraced(o.entries) { ErasAreShares(o.entries); }
  }

  /** StopService or Unregister reported success and had not come too late: the last instance goroutine has exited,
      no earlier one will act again, none is live and no subscription is left; and unless a whole Stop writes the
      status as well, a stopped service is Stopped or Succeeded. It never comes too late without a factory, and then
      every goroutine has exited. (A cron entry has ticks instead of instances: see CronTicks.) */
  lemma StopServiceLeavesNothing(run: seq<Orch>, turns: seq<Turn>, n: nat, t: nat, i: nat)
    requires Execution(run, turns) && n < |turns| && turns[n] == Turn.Return(t) && i < |run[n].entries|
    requires var e := run[n].entries[i];
      && t in e.jobs && e.jobs[t].op.TearDownOp? && e.jobs[t].op.target && !e.jobs[t].failed
      && (e.policy.factory ==> !e.raced && !e.jobs[t].late)
    ensures var f := run[n + 1].entries[i];
      && f.owners == {} && NoneOrClosed(f.instances) && LiveEras(f) == {}
      && (!f.policy.factory ==> forall k :: 0 <= k < |f.instances| ==> f.instances[k].at == Closed)
      && (!ContextDone(run[n].phase) && !run[n].entries[i].jobs[t].op.remove ==> Ended(f.status))
  {
    hide Reserved, Sound, Shaped, Shares, Budgeted, AllReportOnce, Trials, Departs, IdsOk, ShowsExit, Accounted,
         Leaves, Limits, OwnersHeld, Honest, Ends, Drained, WentWell, NoneOrClosed;
    EntryKeeps(run, turns, n, i);
    assert CanTake(run[n], turns[n]);
    var e := run[n].entries[i];
    OnlyFactoryIsLate(e, t);
    StoppedMeansGone(e, t);
    if !ContextDone(run[n].phase) && !e.jobs[t].op.remove { WellEnded(e, t); }
  }

  /** The safety net: a StopService or Unregister of a service without a factory, a skipped dependent included, leaves
      no subscription behind even if it reports a failure. */
  lemma TearDownDrains(run: seq<Orch>, turns: seq<Turn>, n: nat, t: nat, i: nat)
    requires Execution(run, turns) && n < |turns| && turns[n] == Turn.Return(t) && i < |run[n].entries|
    requires var e := run[n].entries[i]; t in e.jobs && e.jobs[t].op.TearDownOp? && !e.policy.factory
    ensures run[n + 1].entries[i].owners == {}
  {
    hide Reserved, Sound, Shaped, Shares, Budgeted, AllReportOnce, Trials, Departs, IdsOk, ShowsExit, Accounted,
         Leaves, Limits, OwnersHeld, Honest, Ends, Drained;
    EntryKeeps(run, turns, n, i);
    assert CanTake(run[n], turns[n]) && run[n + 1] == Take(run[n], turns[n]);
    ReturnedHasDrained(run[n].entries[i], t);
  }

  lemma ReturnedHasDrained(e: Entry, t: nat)
    requires Drained(e) && CanRelease(e, t) && e.jobs[t].op.TearDownOp? && !e.policy.factory
    ensures e.owners == {}
  {
    assert HasDrained(e.policy.factory, e.jobs[t]);
  }

  lemma OnlyFactoryIsLate(e: Entry, t: nat)
    requires Shaped(e) && t in e.jobs
    ensures e.jobs[t].late ==> e.policy.factory
  {
    hide PointsFit, OneActs, StartFits, StopFlags, StopSees, Tethered;
    assert Fits(e, e.jobs[t]);
  }

  lemma WellEnded(e: Entry, t: nat)
    requires Ends(e) && t in e.jobs && WentWell(e.jobs[t])
    ensures Ended(e.status)
  {
    WellStops(e.jobs[t]);
  }

  /** Claims, returns and the phases of Stop change nothing but jobs and flags. */
  predicate SameCore(e: Entry, f: Entry) {
    && f.policy == e.policy && f.status == e.status && f.instances == e.instances
    && f.teardown == e.teardown && f.cancelled == e.cancelled
  }

  lemma ReserveSame(e: Entry, t: nat, op: Op)
    ensures SameCore(e, Reserve(e, t, op))
  {
  }

  lemma ReleaseSame(e: Entry, t: nat)
    requires t in e.jobs
    ensures SameCore(e, ReleaseJob(e, t))
  {
  }

  lemma ResumeSame(e: Entry, verified: bool)
    ensures SameCore(e, Resume(e, verified)) && (STOP in Resume(e, verified).jobs <==> STOP in e.jobs)
  {
  }

  lemma OtherTurnsKeep(o: Orch, m: Turn, i: nat)
    requires CanTake(o, m) && i < |o.entries| && !(m.Local? && m.i == i)
    ensures |Take(o, m).entries| >= |o.entries| && SameCore(o.entries[i], Take(o, m).entries[i])
  {
    hide Do, Can, CanRelease, CanReserve, StopsAt, StopFailed, Reserve, ReleaseJob, Resume;
    var e := o.entries[i];
    match m
    case Claim(t, ops) => if i in ops { ReserveSame(e, t, ops[i]); }
    case Return(t) => if t in e.jobs { ReleaseSame(e, t); }
    case Wind => ReserveSame(e, STOP, ShutdownOp);
    case Miss(_) => if STOP in e.jobs { ReleaseSame(e, STOP); }
    case Wait => ResumeSame(e, true);
    case TimeOut => ResumeSame(e, false); if STOP in e.jobs { ReleaseSame(Resume(e, false), STOP); }
    case Finish => if STOP in e.jobs { ReleaseSame(e, STOP); }
    case _ =>
  }

  lemma LocalTurn(o: Orch, m: Turn)
    requires CanTake(o, m) && m.Local?
    ensures var p := Take(o, m);
      && |p.entries| == |o.entries| && Can(o.entries[m.i], m.a)
      && p.entries[m.i] == Do(o.entries[m.i], ContextDone(o.phase), m.a)
      && !m.a.Reserving? && !m.a.Releasing? && (m.a.Working? ==> m.a.t in o.entries[m.i].jobs)
  {
    hide Do, CanWork, CanAdvance;
    if m.a.Working? { WorksInJobs(o.entries[m.i], m.a); }
  }

  lemma WorksInJobs(e: Entry, a: Action)
    requires Can(e, a) && a.Working?
    ensures a.t in e.jobs
  {
  }

  /** A StopService past the choice of its channel, which it did not make too late. */
  predicate InTime(o: Orch, i: nat, t: nat) {
    && i < |o.entries| && !o.entries[i].raced && t in o.entries[i].jobs
    && o.entries[i].jobs[t].op == TearDownOp(false, true) && !o.entries[i].jobs[t].late
    && PastWatch(o.entries[i].jobs[t].stage)
  }

  predicate PastWatch(stage: Stage) {
    !IsStart(stage) && !stage.Skip? && !stage.Validate? && !stage.Cancel? && !stage.Watch? && !stage.Wipe? &&
        !stage.Rewind?
  }

  lemma NextPastWatch(e: Entry, j: Job, c: Choice)
    requires j.op.TearDownOp? && PastWatch(j.stage) && !j.stage.Return? && !j.stage.Hold?
    ensures var y := NextJob(e, j, c); y.op == j.op && PastWatch(y.stage) && y.late == j.late
  {
    hide NextStart, NextStop, PastWatch;
    PastWatchIsNoStart(j.stage);
    if BeforeWait(j.stage) { BeforeWaitGoesOn(e, j, c); } else { TearDownGoesOn(e, j, c); }
  }

  lemma PastWatchIsNoStart(stage: Stage)
    requires PastWatch(stage)
    ensures !IsStart(stage)
  {
  }

  lemma BeforeWaitGoesOn(e: Entry, j: Job, c: Choice)
    requires j.op.TearDownOp? && BeforeWait(j.stage)
    ensures var y := NextStop(e, j, c); y.op == j.op && PastWatch(y.stage) && y.late == j.late
  {
  }

  lemma TearDownGoesOn(e: Entry, j: Job, c: Choice)
    requires j.op.TearDownOp? && PastWatch(j.stage) && !BeforeWait(j.stage) && !j.stage.Return? && !j.stage.Hold?
    ensures var y := NextStop(e, j, c); y.op == j.op && PastWatch(y.stage) && y.late == j.late
  {
  }

  lemma WorkInTime(e: Entry, t: nat, s: nat, c: Choice)
    requires Reserved(e) && CanWork(e, s, c) && t in e.jobs && e.jobs[t].op.TearDownOp? && PastWatch(e.jobs[t].stage)
    ensures var f := Work(e, s, c);
      && f.raced == e.raced && t in f.jobs && f.jobs[t].op == e.jobs[t].op && f.jobs[t].late == e.jobs[t].late
      && PastWatch(f.jobs[t].stage)
  {
    hide NextJob, PastWatch;
    if s == t { NextPastWatch(e, e.jobs[t], c); } else { OtherJobs(e, s, t); }
  }

  lemma AdvanceInTime(e: Entry, k: nat, ctxDone: bool, c: Choice)
    requires CanAdvance(e, k)
    ensures var f := Advance(e, k, ctxDone, c); f.raced == e.raced && f.jobs == e.jobs
  {
    hide NextInstance;
  }

  predicate KeepsJob(e: Entry, f: Entry, t: nat) {
    f.raced == e.raced && t in f.jobs && t in e.jobs && f.jobs[t] == e.jobs[t]
  }

  lemma ReserveJobStays(e: Entry, t: nat, s: nat, op: Op)
    requires t in e.jobs && s != t
    ensures KeepsJob(e, Reserve(e, s, op), t)
  {
    assert e.jobs != map[];
  }

  lemma ReleaseJobStays(e: Entry, t: nat, s: nat)
    requires t in e.jobs && s in e.jobs && s != t
    ensures KeepsJob(e, ReleaseJob(e, s), t)
  {
  }

  lemma ResumeJobStays(e: Entry, t: nat, verified: bool)
    requires t in e.jobs && t != STOP
    ensures KeepsJob(e, Resume(e, verified), t) && (STOP in Resume(e, verified).jobs <==> STOP in e.jobs)
  {
  }

  /** The turns of others leave the job alone. */
  lemma OthersInTime(o: Orch, m: Turn, i: nat, t: nat)
    requires CanTake(o, m) && InTime(o, i, t) && m != Turn.Return(t) && !(m.Local? && m.i == i) && t != STOP
    ensures InTime(Take(o, m), i, t)
  {
    hide PastWatch, Do, Can, CanReserve, CanRelease, StopsAt, StopFailed, Reserve, ReleaseJob, Resume;
    var e := o.entries[i];
    match m
    case Claim(s, ops) => if i in ops { ReserveJobStays(e, t, s, ops[i]); }
    case Return(s) => if s in e.jobs { ReleaseJobStays(e, t, s); }
    case Wind => ReserveJobStays(e, t, STOP, ShutdownOp);
    case Miss(_) => if STOP in e.jobs { ReleaseJobStays(e, t, STOP); }
    case Wait => ResumeJobStays(e, t, true);
    case TimeOut =>
      ResumeJobStays(e, t, false);
      if STOP in e.jobs { ReleaseJobStays(Resume(e, false), t, STOP); }
    case Finish => if STOP in e.jobs { ReleaseJobStays(e, t, STOP); }
    case _ =>
  }

  lemma NotStop(phase: Phase, e: Entry, t: nat)
    requires JobsOwned(phase, e) && t in e.jobs && e.jobs[t].op.TearDownOp?
    ensures t != STOP
  {
  }

  lemma TurnInTime(o: Orch, m: Turn, i: nat, t: nat)
    requires Inv(o) && CanTake(o, m) && InTime(o, i, t) && m != Turn.Return(t)
    ensures InTime(Take(o, m), i, t)
  {
    hide EntryOk, SinceOk, CalmOk, UpOk, JobsOwned, PastWatch, Do, Take, CanTake;
    assert EntryInv(o, i);
    var e := o.entries[i];
    NotStop(o.phase, e, t);
    if m.Local? && m.i == i {
      LocalTurn(o, m);
      OkReserved(ContextDone(o.phase), e);
      DoInTime(e, ContextDone(o.phase), m.a, t);
    } else {
      OthersInTime(o, m, i, t);
    }
  }

  lemma DoInTime(e: Entry, ctxDone: bool, a: Action, t: nat)
    requires Reserved(e) && Can(e, a) && !a.Reserving? && t in e.jobs && e.jobs[t].op.TearDownOp?
    requires PastWatch(e.jobs[t].stage)
    requires a.Releasing? ==> a.t != t
    ensures var f := Do(e, ctxDone, a);
      && f.raced == e.raced && t in f.jobs && f.jobs[t].op == e.jobs[t].op && f.jobs[t].late == e.jobs[t].late
      && PastWatch(f.jobs[t].stage)
  {
    hide Work, Advance, CanWork, PastWatch;
    match a
    case Working(s, c) => WorkInTime(e, t, s, c);
    case Advancing(k, c) => AdvanceInTime(e, k, ctxDone, c);
    case Releasing(s) =>
  }

  lemma OkReserved(ctxDone: bool, e: Entry)
    requires EntryOk(ctxDone, e)
    ensures Reserved(e)
  {
    hide Reserved, Kept;
  }

  lemma {:induction false} StaysInTime(run: seq<Orch>, turns: seq<Turn>, m: nat, n: nat, i: nat, t: nat)
    requires Execution(run, turns) && m <= n < |run| && InTime(run[m], i, t)
    requires forall k :: m <= k < n ==> turns[k] != Turn.Return(t)
    ensures InTime(run[n], i, t)
  {
    hide Inv, CanTake, Take, InTime;
    if m < n {
      StaysInTime(run, turns, m, n - 1, i, t);
      RunInv(run, turns, n - 1);
      TurnInTime(run[n - 1], turns[n - 1], i, t);
    }
  }

  /** The same in terms of the one moment that matters: a StopService chooses its exit channel at turn w,
      with no restart past its check, and returns success at turn n. */
  lemma TimelyStopLeavesNothing(run: seq<Orch>, turns: seq<Turn>, w: nat, n: nat, c: Choice, t: nat, i: nat)
    requires Execution(run, turns) && w < n < |turns| && i < |run[w].entries| && t in run[w].entries[i].jobs
    requires turns[w] == Local(i, Working(t, c)) && run[w].entries[i].jobs[t].stage.Watch?
    requires run[w].entries[i].jobs[t].op == TearDownOp(false, true) && !run[w].entries[i].raced
    requires !Through(run[w].entries[i].instances)
    requires turns[n] == Turn.Return(t) && forall k :: w < k < n ==> turns[k] != Turn.Return(t)
    ensures i < |run[n].entries| && t in run[n].entries[i].jobs && i < |run[n + 1].entries|
    ensures !run[n].entries[i].jobs[t].failed ==>
              var f := run[n + 1].entries[i];
              && f.owners == {} && NoneOrClosed(f.instances) && LiveEras(f) == {}
              && (!f.policy.factory ==> forall k :: 0 <= k < |f.instances| ==> f.instances[k].at == Closed)
              && (!ContextDone(run[n].phase) ==> Ended(f.status))
  {
    hide CanWork, PastWatch, NoneOrClosed, Ended, CanRelease;
    assert CanTake(run[w], turns[w]) && run[w + 1] == Take(run[w], turns[w]);
    assert CanTake(run[n], turns[n]) && run[n + 1] == Take(run[n], turns[n]);
    ChosenInTime(run[w], c, t, i);
    StaysInTime(run, turns, w + 1, n, i, t);
    if !run[n].entries[i].jobs[t].failed { StopServiceLeavesNothing(run, turns, n, t, i); }
  }

  lemma ChosenInTime(o: Orch, c: Choice, t: nat, i: nat)
    requires i < |o.entries| && t in o.entries[i].jobs && CanTake(o, Local(i, Working(t, c)))
    requires o.entries[i].jobs[t].stage.Watch? && o.entries[i].jobs[t].op == TearDownOp(false, true)
    requires !o.entries[i].raced && !Through(o.entries[i].instances)
    ensures InTime(Take(o, Local(i, Working(t, c))), i, t)
  {
    hide NextStart, Through, CanWork;
  }

  /** No start is at work on the entry, it is still registered, and no replacement of it was late. */
  predicate Unstarted(o: Orch, i: nat) {
    && i < |o.entries| && !o.entries[i].removed && !o.entries[i].raced
    && forall t :: t in o.entries[i].jobs ==> !IsStart(o.entries[i].jobs[t].stage)
  }

  lemma TurnHoldsBack(o: Orch, m: Turn, i: nat)
    requires Inv(o) && CanTake(o, m) && Unstarted(o, i) && Unstarted(Take(o, m), i) && o.entries[i].policy.factory
    requires Cut(o.entries[i])
    ensures var f := Take(o, m).entries[i];
      f.policy == o.entries[i].policy && Cut(f) && Coming(f) <= Coming(o.entries[i])
  {
    hide Keeps, Do, Can, Shaped, Take, CanTake, Through;
    assert EntryInv(o, i);
    if m.Local? && m.i == i {
      var e := o.entries[i];
      LocalTurn(o, m);
      KeepsSound(o.phase, FoundAt(o, i), e);
      StepHoldsBack(e, ContextDone(o.phase), m.a);
      DoStays(e, ContextDone(o.phase), m.a);
    } else {
      OtherTurnsKeep(o, m, i);
    }
  }

  /** Once the teardown of a self-healing service is cancelled, and until somebody starts it again, no
      instance comes up but the one whose restart was already past its check. */
  lemma {:induction false} TeardownLetsOneThrough(run: seq<Orch>, turns: seq<Turn>, m: nat, n: nat, i: nat)
    requires Execution(run, turns) && m <= n < |run| && i < |run[m].entries| && run[m].entries[i].policy.factory
    requires Cut(run[m].entries[i])
    requires forall k :: m <= k <= n ==> Unstarted(run[k], i)
    ensures Unstarted(run[n], i) && run[n].entries[i].policy == run[m].entries[i].policy && Cut(run[n].entries[i])
    ensures Coming(run[n].entries[i]) <= Coming(run[m].entries[i])
  {
    hide Inv, CanTake, Take, Through, Cut;
    if m < n {
      TeardownLetsOneThrough(run, turns, m, n - 1, i);
      RunInv(run, turns, n - 1);
      assert Unstarted(run[n - 1], i) && Unstarted(run[n], i);
      TurnHoldsBack(run[n - 1], turns[n - 1], i);
    }
  }

  /** How many launches are under way: renewals of the latch that a launch will follow. */
  function Underway(e: Entry): nat {
    CountAt(e.instances, Renewed) + CountAt(e.instances, Revived)
  }

  /** However stops and exits interleave, an entry's Stops do not exceed its Starts and Restarts once no launch
      is under way: at any time for an entry that stays registered, to the end of a whole Stop that found no
      replacement of it still busy with what it replaces; and before that for a self-healing service even
      after its removal. */
  lemma StopsNeverExceedLaunches(run: seq<Orch>, turns: seq<Turn>, n: nat, i: nat)
    requires Execution(run, turns) && n < |run| && i < |run[n].entries|
    requires run[n].entries[i].removed ==> run[n].entries[i].policy.factory && !ContextDone(run[n].phase)
    requires ContextDone(run[n].phase) ==> i < |run[n].found| && NoneUndone(run[n].found[i])
    ensures var e := run[n].entries[i];
      && e.stops <= e.starts + e.restarts + Untallied(e.instances) + Underway(e) + B(Starts(e.jobs))
      && (Underway(e) == 0 && !Starts(e.jobs) && Untallied(e.instances) == 0 ==> e.stops <= e.starts + e.restarts)
  {
    hide EntryOk, Counted, Latched, Paid, Shared, NoneUndone, CalmOk, JobsOwned, GateSeen, AllFruitless, NoStarts,
         Cooled, Untallied, CountAt;
    RunInv(run, turns, n);
    var e, found := run[n].entries[i], FoundAt(run[n], i);
    assert EntryInv(run[n], i);
    OkTallied(ContextDone(run[n].phase), e);
    if !e.policy.factory {
      CountedBounds(e);
    } else if !ContextDone(run[n].phase) {
      PaidBounds(e);
    } else if NoStarts(found) {
      LatchedBounds(e);
    } else {
      OkReserved(true, e);
      SharedBounds(e);
    }
  }

  lemma OkTallied(ctxDone: bool, e: Entry)
    requires EntryOk(ctxDone, e)
    ensures Tallied(e) && Pointed(e.policy, e.instances)
  {
    hide Reserved, Kept, Tallied, Pointed, Staged, Linked, Covered, Moored, AllReportOnce, Trials, Departs, IdsOk,
         OwnersHeld;
  }

  lemma CountedBounds(e: Entry)
    requires Counted(e) && Pointed(e.policy, e.instances) && !e.policy.factory
    ensures e.stops <= e.launched + B(Starts(e.jobs))
  {
    hide CountAt;
    PlainRestartsNever(e);
  }

  lemma PlainRestartsNever(e: Entry)
    requires Pointed(e.policy, e.instances) && !e.policy.factory
    ensures !RestartWindow(e.instances)
  {
  }

  lemma PaidBounds(e: Entry)
    requires Paid(e)
    ensures e.stops <= e.launched + Underway(e) + B(Starts(e.jobs))
  {
    hide CountAt;
    if t :| t in e.jobs { LaunchingStarts(e.jobs[t].stage); }
  }

  lemma LaunchingStarts(stage: Stage)
    ensures Launching(stage) ==> StartWindow(stage) && !stage.Return?
  {
  }

  lemma LatchedBounds(e: Entry)
    requires Latched(e)
    ensures e.stops <= e.launched + Underway(e) + B(Starts(e.jobs))
  {
    hide CountAt;
  }

  lemma SharedBounds(e: Entry)
    requires Shared(e) && Reserved(e)
    ensures e.stops <= e.launched + Underway(e) + B(Starts(e.jobs))
  {
    hide CountAt, PaidBoth, Undone, Launching, StartWindow, Reserved;
    var u := if t :| t in e.jobs && t != STOP then t else 1;
    forall v | v in e.jobs && v != STOP ensures v == u { HoldersAgree(e, u, v); }
    assert OnlyOther(e.jobs, u);
    BothBound(e.status, e.stops, Credit(e), JobAt(e.jobs, u), JobAt(e.jobs, STOP));
    LaunchingStarts(JobAt(e.jobs, u).stage);
  }

  lemma HoldersAgree(e: Entry, u: nat, v: nat)
    requires Shared(e) && Reserved(e) && v in e.jobs && v != STOP && u in e.jobs && u != STOP
    ensures u == v
  {
    hide CountAt, PaidBoth, Undone;
  }

  lemma BothBound(status: Status, stops: nat, credit: nat, h: Job, s: Job)
    requires PaidBoth(status, stops, credit, h, s)
    ensures stops <= credit + B(Launching(h.stage))
  {
    hide Launching, MayCount;
  }

  /** No instance reports more than one crash, and one that gave up undisturbed has reported exactly one. With a
      retry limit that stability does not reset, a service restarts at most maxRetries times; its last
      instance, once it has reported its crash undisturbed and exited, has left the entry Crashed, until an
      operation writes the status. */
  lemma CrashLoopsEnd(run: seq<Orch>, turns: seq<Turn>, n: nat, i: nat)
    requires Execution(run, turns) && n < |run| && i < |run[n].entries|
    ensures var e := run[n].entries[i];
      && (forall k :: 0 <= k < |e.instances| ==>
            var x := e.instances[k];
            x.reports <= 1 && (x.at == Closed && x.gaveUp && !x.yielded ==> x.reports == 1))
      && (Limited(e.policy) && !e.removed && !e.raced ==> e.relaunched <= e.retryCount <= e.policy.maxRetries)
      && (|e.instances| > 0 && !e.removed && !e.raced && !e.overruled ==>
            var x := e.instances[|e.instances| - 1];
            x.at == Closed && x.reports == 1 && !x.yielded ==> e.status == Crashed)
  {
    hide Reserved, Sound, Shaped, Shares, Ends, Drained, OwnersHeld, Honest, RestartOpen;
    EntryKeeps(run, turns, n, i);
  }

  /** A gate that succeeded stays so, through every stop, until it is started again or removed; under a
      whole Stop, as long as that found nothing in flight that could still bring the gate up. */
  lemma GateStaysSucceeded(run: seq<Orch>, turns: seq<Turn>, n: nat, i: nat)
    requires Execution(run, turns) && n < |turns| && i < |run[n].entries|
    requires run[n].entries[i].status == Succeeded && run[n].entries[i].policy.kind.RunOnce?
    requires ContextDone(run[n].phase) ==> i < |run[n].found| && AllFruitless(run[n].found[i])
    ensures |run[n + 1].entries| >= |run[n].entries|
    ensures || run[n + 1].entries[i].status == Succeeded
            || (turns[n].Local? && turns[n].i == i && turns[n].a.Working? && turns[n].a.t in run[n].entries[i].jobs &&
                var j := run[n].entries[i].jobs[turns[n].a.t]; IsStart(j.stage) || j.stage.Remove?)
  {
    hide Keeps, GateSeen, Do, Can, Shaped, Take, CanTake, BlessAlone;
    RunInv(run, turns, n);
    var o, m := run[n], turns[n];
    assert EntryInv(o, i) && CanTake(o, m) && run[n + 1] == Take(o, m);
    if m.Local? && m.i == i {
      LocalTurn(o, m);
      GateIsSeen(o, i);
      StepSees(o.entries[i], ContextDone(o.phase), m.a);
    } else {
      OtherTurnsKeep(o, m, i);
    }
  }

  lemma GateIsSeen(o: Orch, i: nat)
    requires i < |o.entries| && EntryInv(o, i) && o.entries[i].policy.kind.RunOnce?
    requires ContextDone(o.phase) ==> AllFruitless(FoundAt(o, i))
    ensures Shaped(o.entries[i]) && GateSeen(o.entries[i]) && BlessAlone(o.entries[i])
  {
    hide Reserved, Sound, Shaped, Shares, Budgeted, AllReportOnce, Trials, Departs, IdsOk, ShowsExit, Accounted,
         Leaves, Limits, OwnersHeld, Honest, Ends, Drained, Counted, Paid, Latched, Shared, GateSeen, AllFruitless,
         BlessAlone, Cooled, NoStarts, NoneUndone, CalmOk, JobsOwned;
    if ContextDone(o.phase) {
      FruitlessIsAlone(o.entries[i]);
    } else {
      EndsHold(o.entries[i]);
      HoldersAlone(o.entries[i]);
    }
  }

  /** What Stop found is the state of the entries when it cancelled the context. */
  lemma {:induction false} FoundIsSnapshot(run: seq<Orch>, turns: seq<Turn>, w: nat, n: nat)
    requires Execution(run, turns) && w < n < |run| && turns[w] == Wind
    ensures ContextDone(run[n].phase) && run[n].found == run[w].entries
  {
    hide Do, Can, Claimed, Returned, Wound, Resumed;
    if n == w + 1 {
      assert CanTake(run[w], turns[w]) && run[n] == Take(run[w], turns[w]);
    } else {
      FoundIsSnapshot(run, turns, w, n - 1);
      assert CanTake(run[n - 1], turns[n - 1]) && run[n] == Take(run[n - 1], turns[n - 1]);
    }
  }

  /** A whole Stop that reported success, and found nothing in flight that could still add to the wait group (no
      start that has not done so yet, no replacement), leaves nothing of any service alive and the wait group
      empty, whatever it raced. */
  lemma StopLeavesNothing(run: seq<Orch>, turns: seq<Turn>, n: nat)
    requires Execution(run, turns) && n < |run| && run[n].phase == Down(false)
    requires forall i :: 0 <= i < |run[n].found| ==> AllBarren(run[n].found[i])
    ensures run[n].wg == 0
    ensures forall i :: 0 <= i < |run[n].entries| ==> LiveEras(run[n].entries[i]) == {}
  {
    hide Keeps, Total, AllBarren;
    RunInv(run, turns, n);
    var o := run[n];
    forall i | 0 <= i < |o.entries| ensures LiveEras(o.entries[i]) == {} && o.entries[i].share == 0 {
      assert EntryInv(o, i);
      SettledIsGone(o.phase, o.found[i], o.entries[i]);
    }
    TotalZero(o.entries);
  }

  lemma SettledIsGone(phase: Phase, found: Entry, e: Entry)
    requires Keeps(phase, found, e) && phase == Down(false) && AllBarren(found)
    ensures LiveEras(e) == {} && e.share == 0
  {
    hide EntryOk, SinceOk, JobsOwned, AllSettled, AllSpent;
    NoneLive(e);
  }

  lemma NoneLive(e: Entry)
    requires AllSettled(e.instances)
    ensures LiveEras(e) == {}
  {
  }

  lemma {:induction false} TotalZero(entries: seq<Entry>)
    requires forall i :: 0 <= i < |entries| ==> entries[i].share == 0
    ensures Total(entries) == 0
  {
    if entries != [] { TotalZero(entries[..|entries| - 1]); }
  }

  /** And every registered service is Stopped or Succeeded on which Stop found nothing that could undo that:
      every operation was past its last other status, or it is a gate that had succeeded already and that
      nothing could start. */
  lemma StopEndsEntries(run: seq<Orch>, turns: seq<Turn>, n: nat, i: nat)
    requires Execution(run, turns) && n < |run| && run[n].phase == Down(false)
    requires i < |run[n].entries| && !run[n].entries[i].removed
    requires i < |run[n].found| ==>
               var found := run[n].found[i]; AllSpent(found) || (found.status.Succeeded? && AllFruitless(found))
    ensures i < |run[n].found| && Ended(run[n].entries[i].status)
  {
    hide Reserved, Sound, Kept, AllReportOnce, Trials, Departs, IdsOk, OwnersHeld, UpOk, JobsOwned, AllSettled,
         AllMute, Spent, Cooled, Counted, Latched, Shared, NoStarts, NoneUndone, GateSeen, AllFruitless;
    RunInv(run, turns, n);
    assert EntryInv(run[n], i);
  }

  /** A whole Stop commits Stopped, and counts, only where its stop sequence was completed and the wait group has run
      empty. */
  lemma StopCommitsCompleted(run: seq<Orch>, turns: seq<Turn>, n: nat, i: nat)
    requires Execution(run, turns) && n < |run| && i < |run[n].entries| && STOP in run[n].entries[i].jobs
    requires run[n].entries[i].jobs[STOP].stage.Commit? || run[n].entries[i].jobs[STOP].stage.Account?
    ensures run[n].entries[i].jobs[STOP].completed && run[n].phase.Waited?
  {
    hide EntryOk, SinceOk, CalmOk, UpOk;
    RunInv(run, turns, n);
    assert EntryInv(run[n], i);
  }

  /** Where Stop found no operation at all, it has also run the stop sequence exactly once. */
  lemma StopStopsOnce(run: seq<Orch>, turns: seq<Turn>, n: nat, i: nat)
    requires Execution(run, turns) && n < |run| && run[n].phase == Down(false)
    requires i < |run[n].entries| && !run[n].entries[i].removed
    requires i < |run[n].found| ==> run[n].found[i].jobs == map[]
    ensures i < |run[n].found|
    ensures var e := run[n].entries[i];
      Ended(e.status) && e.jobs == map[] && e.sequences == run[n].found[i].sequences + 1
  {
    hide EntryOk, SinceOk, UpOk, JobsOwned, AllSettled, AllMute, Spent, AllFruitless;
    RunInv(run, turns, n);
    assert EntryInv(run[n], i);
    StopEndsEntries(run, turns, n, i);
  }
}
