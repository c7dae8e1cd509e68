/** What a start leads to, whatever else runs: one instance, one gate or one schedule, counted once. */
module StartOutcomes {
  import opened Services
  import opened Registry
  import opened Lifecycle
  import opened LifecycleFlow
  import opened LifecycleSafety
  import opened LifecycleShares
  import opened LifecycleSound
  import opened LifecycleEnds
  import opened Shutdown
  import opened Winddown
  import opened Runs
  import opened Guarantees
  import opened StopOutcomes

  /** How a gate stands once its Start has returned. */
  function GateEnd(failed: bool): Status {
    if failed then Crashed else Succeeded
  }

  /** What a start that passed its hook has done once it returns, when the entry had m instances: the new instance
      launched, the gate decided or the schedule running. */
  predicate UpAt(kind: Kind, status: Status, instances: seq<Instance>, failed: bool, m: nat) {
    match kind
    case Persistent => |instances| > m && !instances[m].at.Pending?
    case RunOnce => status == GateEnd(failed)
    case Scheduled => status == Running
  }

  /** What a start that its hook or its start condition declined has done: nothing but to leave the service Stopped. */
  predicate DeclinedAt(status: Status, instances: seq<Instance>, m: nat) {
    status == Stopped && |instances| == m && NoneOrClosed(instances)
  }

  /** How far a start has got, when the entry had been started s times and had m instances. */
  predicate Climbs(kind: Kind, status: Status, starts: nat, instances: seq<Instance>, j: Job, s: nat, m: nat) {
    if j.stage.Own? || j.stage.Arm? || j.stage.Run? then
      starts == s && |instances| == m && status == Starting
    else if j.stage.Count? then starts == s && |instances| == m && status == Running
    else if j.stage.Unlatch? || j.stage.Enroll? || j.stage.Fit? then
      starts == s + 1 && |instances| == m && status == Running
    else if j.stage.Launch? then
      starts == s + 1 && |instances| == m + 1 && status == Running && j.channel == Some(m)
    else if j.stage.Gate? || j.stage.Ungate? || j.stage.Settle? then starts == s + 1 && status == Running
    else if j.stage.Bless? then starts == s + 1 && status == Running && !j.failed
    else if j.stage.Free? then starts == s + 1 && status == GateEnd(j.failed)
    else j.stage.Return? && starts == s + 1 && UpAt(kind, status, instances, j.failed, m)
  }

  predicate Stands(e: Entry, j: Job, declined: bool, s: nat, m: nat) {
    if declined then j.stage.Return? && e.starts == s && DeclinedAt(e.status, e.instances, m)
    else Climbs(e.policy.kind, e.status, e.starts, e.instances, j, s, m)
  }

  predicate Climbing(e: Entry, t: nat, declined: bool, s: nat, m: nat) {
    t in e.jobs && HoldsStarting(e.jobs[t].op) && Stands(e, e.jobs[t], declined, s, m)
  }

  lemma NextClimbs(e: Entry, j: Job, c: Choice, s: nat, m: nat)
    requires Climbs(e.policy.kind, e.status, e.starts, e.instances, j, s, m) && KindFits(e.policy, j.stage)
    requires !j.stage.Return?
    ensures IsStart(j.stage) && NextStart(e, j, c).op == j.op
    ensures Climbs(e.policy.kind, StatusByJob(e.status, j, c), e.starts + B(j.stage.Count?),
                   InstancesByJob(e.instances, j), NextStart(e, j, c), s, m)
  {
  }

  lemma OwnWork(e: Entry, t: nat, c: Choice, declined: bool, s: nat, m: nat)
    requires CanWork(e, t, c) && Climbing(e, t, declined, s, m) && KindFits(e.policy, e.jobs[t].stage)
    ensures Climbing(Work(e, t, c), t, declined, s, m)
  {
    hide NextStart, NextStop, Climbs, KindFits, StatusByJob, InstancesByJob, DeclinedAt, IsStart, LatchReset, Counts,
         WritesStatus, OwnersByJob, Through;
    NextClimbs(e, e.jobs[t], c, s, m);
  }

  lemma WorkClimbs(e: Entry, t: nat, s: nat, c: Choice, declined: bool, starts: nat, m: nat)
    requires Reserved(e) && AllHold(e) && Staged(e) && CanWork(e, s, c) && Climbing(e, t, declined, starts, m)
    ensures Climbing(Work(e, s, c), t, declined, starts, m)
  {
    hide Work, Stands, Reserved, AllHold, KindFits, StageFits;
    OnlyJob(e, s, t);
    OwnWork(e, t, c, declined, starts, m);
  }

  /** Under a start that is not up yet, and after one that was declined, no instance does anything more. */
  lemma QuietUnder(e: Entry, k: nat, ctxDone: bool, c: Choice)
    requires Shaped(e) && CanAdvance(e, k) && (NoneOrClosed(e.instances) || LastPending(e.instances))
    requires |e.instances| > 1 && LastPending(e.instances) ==> Settled(e.instances[|e.instances| - 2].at)
    ensures var f := Advance(e, k, ctxDone, c);
      && f.status == e.status && |f.instances| == |e.instances|
      && (NoneOrClosed(e.instances) ==> NoneOrClosed(f.instances))
  {
    hide NextInstance, Fits, Tethered, Latest, Follows, PointsFit, InstancesByInstance;
    PointOf(e, k);
    InstanceFollows(e, e.instances[k], ctxDone, c);
    AdvanceKeeps(e, k, NextInstance(e, e.instances[k], ctxDone, c));
  }

  lemma StartIsQuiet(e: Entry, t: nat)
    requires Shaped(e) && t in e.jobs && IsStart(e.jobs[t].stage)
    ensures NoneOrClosed(e.instances) || LastPending(e.instances)
    ensures |e.instances| > 1 && LastPending(e.instances) ==> Settled(e.instances[|e.instances| - 2].at)
  {
    hide OneActs, PointsFit, Tethered, Latest, Stops, StopFlags, StopSees;
    assert Fits(e, e.jobs[t]);
  }

  lemma AdvanceClimbs(e: Entry, t: nat, k: nat, ctxDone: bool, c: Choice, declined: bool, s: nat, m: nat)
    requires Shaped(e) && Sound(e) && CanAdvance(e, k) && Climbing(e, t, declined, s, m)
    ensures Climbing(Advance(e, k, ctxDone, c), t, declined, s, m)
  {
    hide NextInstance, StatusByInstance, Shaped, Sound, InstancesByInstance;
    if e.jobs[t].stage.Return? && !declined {
      OnlyPersistentAdvances(e, k);
      StaysUp(e, k, ctxDone, c, m);
    } else {
      if !declined { StartIsQuiet(e, t); }
      QuietUnder(e, k, ctxDone, c);
    }
  }

  lemma OnlyPersistentAdvances(e: Entry, k: nat)
    requires Sound(e) && CanAdvance(e, k)
    ensures e.policy.kind.Persistent?
  {
    hide Staged, Linked, Tallied, Covered, Moored;
  }

  /** A launched instance never waits for its launch again. */
  lemma StaysUp(e: Entry, k: nat, ctxDone: bool, c: Choice, m: nat)
    requires Sound(e) && CanAdvance(e, k) && m < |e.instances| && !e.instances[m].at.Pending?
    ensures var f := Advance(e, k, ctxDone, c); m < |f.instances| && !f.instances[m].at.Pending?
  {
    hide NextInstance, Staged, Linked, Tallied, Covered, Moored, StatusByInstance;
    InstanceFollows(e, e.instances[k], ctxDone, c);
  }

  lemma DoClimbs(e: Entry, a: Action, t: nat, declined: bool, s: nat, m: nat)
    requires Reserved(e) && AllHold(e) && Sound(e) && Shaped(e) && Can(e, a) && !a.Reserving?
    requires Climbing(e, t, declined, s, m) && (a.Releasing? ==> a.t != t)
    ensures Climbing(Do(e, false, a), t, declined, s, m)
  {
    hide Reserved, AllHold, Sound, Shaped, Work, Advance, CanWork, CanAdvance, CanRelease, Climbs, DeclinedAt;
    SoundStaged(e);
    match a
    case Working(r, c) => WorkClimbs(e, t, r, c, declined, s, m);
    case Advancing(k, c) => AdvanceClimbs(e, t, k, false, c, declined, s, m);
    case Releasing(r) =>
  }

  /** A start past its hook, before any shutdown, on an entry that no replacement was late on. */
  predicate UnderWay(o: Orch, i: nat, t: nat, declined: bool, s: nat, m: nat) {
    i < |o.entries| && !o.entries[i].raced && Climbing(o.entries[i], t, declined, s, m)
  }

  predicate SameStart(e: Entry, f: Entry, t: nat) {
    && f.policy == e.policy && f.status == e.status && f.starts == e.starts && f.instances == e.instances
    && t in e.jobs && t in f.jobs && f.jobs[t] == e.jobs[t]
  }

  lemma ReserveSameStart(e: Entry, r: nat, op: Op, t: nat)
    requires t in e.jobs && r != t
    ensures SameStart(e, Reserve(e, r, op), t)
  {
    hide AtRest;
  }

  lemma ReleaseSameStart(e: Entry, r: nat, t: nat)
    requires t in e.jobs && r in e.jobs && r != t
    ensures SameStart(e, ReleaseJob(e, r), t)
  {
  }

  lemma OthersClimb(o: Orch, u: Turn, i: nat, t: nat, declined: bool, s: nat, m: nat)
    requires CanTake(o, u) && UnderWay(o, i, t, declined, s, m) && !ContextDone(o.phase)
    requires !ContextDone(Take(o, u).phase) && !(u.Local? && u.i == i) && u != Turn.Return(t)
    ensures i < |Take(o, u).entries| && Climbing(Take(o, u).entries[i], t, declined, s, m)
  {
    hide Climbs, DeclinedAt, Do, Can, CanReserve, CanRelease, StopsAt, StopFailed, Reserve, ReleaseJob;
    var e := o.entries[i];
    match u
    case Claim(r, ops) => if i in ops { ReserveSameStart(e, r, ops[i], t); }
    case Return(r) => if r in e.jobs { ReleaseSameStart(e, r, t); }
    case _ =>
  }

  /** Under a start past its hook nothing is raced. */
  lemma StaysCalm(e: Entry, a: Action, t: nat, declined: bool, s: nat, m: nat)
    requires Reserved(e) && AllHold(e) && Can(e, a) && !a.Reserving? && Climbing(e, t, declined, s, m) && !e.raced
    ensures !Do(e, false, a).raced
  {
    hide NextJob, NextInstance, InstancesByJob, InstancesByInstance, StatusByJob, StatusByInstance, Through,
         CanReserve, CanAdvance, CanRelease, UpAt, DeclinedAt, Reserved, AllHold;
    if a.Working? { OnlyJob(e, a.t, t); }
  }

  lemma TurnClimbs(o: Orch, u: Turn, i: nat, t: nat, declined: bool, s: nat, m: nat)
    requires Inv(o) && CanTake(o, u) && UnderWay(o, i, t, declined, s, m) && !ContextDone(o.phase)
    requires !ContextDone(Take(o, u).phase) && u != Turn.Return(t)
    ensures UnderWay(Take(o, u), i, t, declined, s, m)
  {
    hide Keeps, Climbing, Do, Take, CanTake, Reserved, Sound, Shaped, Inv, AllHold;
    var e := o.entries[i];
    if u.Local? && u.i == i {
      StartAt(o, i);
      LocalTurn(o, u);
      DoClimbs(e, u.a, t, declined, s, m);
      StaysCalm(e, u.a, t, declined, s, m);
    } else {
      OthersClimb(o, u, i, t, declined, s, m);
      OthersUnraced(o, u, i);
    }
  }

  lemma StartAt(o: Orch, i: nat)
    requires Inv(o) && i < |o.entries| && !o.entries[i].raced && !ContextDone(o.phase)
    ensures Reserved(o.entries[i]) && Sound(o.entries[i]) && Shaped(o.entries[i]) && AllHold(o.entries[i])
  {
    hide Reserved, Sound, Shaped, JobsOwned, UpOk, SinceOk, CalmOk, Inv, Keeps, AllHold;
    assert EntryInv(o, i) by { EntryAt(o, i); }
    KeepsSound(o.phase, FoundAt(o, i), o.entries[i]);
    OwnedHold(o.phase, o.entries[i]);
  }

  lemma {:induction false} StaysUnderWay(run: seq<Orch>, turns: seq<Turn>, b: nat, n: nat, i: nat, t: nat,
      declined: bool, s: nat, m: nat)
    requires Execution(run, turns) && b <= n < |run| && UnderWay(run[b], i, t, declined, s, m)
    requires !ContextDone(run[n].phase) && forall k :: b <= k < n ==> turns[k] != Turn.Return(t)
    ensures UnderWay(run[n], i, t, declined, s, m)
  {
    hide Inv, CanTake, Take, UnderWay;
    if b < n {
      PhaseOnward(run, turns, n - 1, n);
      StaysUnderWay(run, turns, b, n - 1, i, t, declined, s, m);
      RunInv(run, turns, n - 1);
      assert run[n] == Take(run[n - 1], turns[n - 1]);
      TurnClimbs(run[n - 1], turns[n - 1], i, t, declined, s, m);
    }
  }

  /** The hook of a start, or the launch of its schedule. */
  predicate AtHook(o: Orch, i: nat, t: nat) {
    i < |o.entries| && t in o.entries[i].jobs &&
    (o.entries[i].jobs[t].stage.Hook? || o.entries[i].jobs[t].stage.Schedule?)
  }

  /** The moment of the hook. */
  lemma HookClimbs(e: Entry, t: nat, c: Choice)
    requires Reserved(e) && Staged(e) && Shaped(e) && CanWork(e, t, c)
    requires e.jobs[t].stage.Hook? || (e.jobs[t].stage.Schedule? && c.ok)
    ensures Climbing(Work(e, t, c), t, !c.ok, e.starts, |e.instances|) && Work(e, t, c).raced == e.raced
  {
    hide NextStop, Reserved, OneActs, PointsFit, Tethered, Latest, Stops, StopFlags, StopSees;
    assert Fits(e, e.jobs[t]);
  }

  /** A start or a replacement asked its hook, or launched its schedule, at turn h, and returns at turn n before any
      shutdown. If that went well the entry has been started exactly once more, and its one new instance is launched,
      its gate decided by how Start returned, or its schedule running. If the hook failed or the start condition did not
      hold, nothing was started and the service is Stopped. */
  lemma StartPutsUp(run: seq<Orch>, turns: seq<Turn>, h: nat, n: nat, c: Choice, t: nat, i: nat)
    requires Execution(run, turns) && h < n < |turns| && AtHook(run[h], i, t) && !run[h].entries[i].raced
    requires turns[h] == Local(i, Working(t, c)) && (run[h].entries[i].jobs[t].stage.Schedule? ==> c.ok)
    requires turns[n] == Turn.Return(t) && forall k :: h < k < n ==> turns[k] != Turn.Return(t)
    requires !ContextDone(run[n].phase)
    ensures i < |run[n].entries| && t in run[n].entries[i].jobs && i < |run[n + 1].entries|
    ensures var e, f := run[h].entries[i], run[n].entries[i];
      && f.starts == e.starts + B(c.ok)
      && (c.ok ==> UpAt(f.policy.kind, f.status, f.instances, f.jobs[t].failed, |e.instances|))
      && (!c.ok ==> DeclinedAt(f.status, f.instances, |e.instances|))
  {
    hide Inv, CanTake, Take, UnderWay, UpAt, DeclinedAt;
    assert CanTake(run[h], turns[h]) && run[h + 1] == Take(run[h], turns[h]);
    assert CanTake(run[n], turns[n]) && run[n + 1] == Take(run[n], turns[n]);
    var e := run[h].entries[i];
    PhaseOnward(run, turns, h, n);
    RunInv(run, turns, h);
    HookUnderWay(run[h], c, t, i);
    StaysUnderWay(run, turns, h + 1, n, i, t, !c.ok, e.starts, |e.instances|);
    ReturnStands(run[n], t, i, !c.ok, e.starts, |e.instances|);
  }

  lemma HookUnderWay(o: Orch, c: Choice, t: nat, i: nat)
    requires Inv(o) && CanTake(o, Local(i, Working(t, c))) && AtHook(o, i, t) && !o.entries[i].raced
    requires !ContextDone(o.phase) && (o.entries[i].jobs[t].stage.Schedule? ==> c.ok)
    ensures UnderWay(Take(o, Local(i, Working(t, c))), i, t, !c.ok, o.entries[i].starts, |o.entries[i].instances|)
  {
    hide Inv, CanWork, Reserved, Sound, Shaped, Staged, Climbing, Work;
    StartAt(o, i);
    SoundStaged(o.entries[i]);
    HookClimbs(o.entries[i], t, c);
  }

  lemma ReturnStands(o: Orch, t: nat, i: nat, declined: bool, s: nat, m: nat)
    requires CanTake(o, Turn.Return(t)) && UnderWay(o, i, t, declined, s, m)
    ensures i < |o.entries| && t in o.entries[i].jobs && i < |Take(o, Turn.Return(t)).entries|
    ensures var f := o.entries[i];
      && f.starts == s + B(!declined)
      && (!declined ==> UpAt(f.policy.kind, f.status, f.instances, f.jobs[t].failed, m))
      && (declined ==> DeclinedAt(f.status, f.instances, m))
  {
    hide UpAt, DeclinedAt;
    assert CanRelease(o.entries[i], t);
  }

  /** A start or a replacement that has not come to its hook, or has failed before it. */
  predicate BeforeHook(j: Job) {
    && HoldsStarting(j.op) && !PersistentStage(j.stage) && !GateStage(j.stage) && !Arming(j.stage) && !j.stage.Count?
    && (j.stage.Return? ==> j.failed)
  }

  lemma NextBeforeHook(e: Entry, j: Job, c: Choice)
    requires BeforeHook(j) && StageFits(j.op, j.stage) && !j.stage.Return? && !j.stage.Hold? && !j.stage.Hook?
    requires !j.stage.Schedule?
    ensures BeforeHook(NextJob(e, j, c))
  {
    hide NextStart, NextStop;
    if IsStart(j.stage) { GuardBeforeHook(e, j, c); } else { StopBeforeHook(e, j, c); }
  }

  lemma GuardBeforeHook(e: Entry, j: Job, c: Choice)
    requires BeforeHook(j) && IsStart(j.stage) && !j.stage.Hook? && !j.stage.Schedule?
    ensures BeforeHook(NextStart(e, j, c))
  {
  }

  lemma StopBeforeHook(e: Entry, j: Job, c: Choice)
    requires BeforeHook(j) && StageFits(j.op, j.stage) && !IsStart(j.stage) && !j.stage.Return? && !j.stage.Hold?
    ensures BeforeHook(NextStop(e, j, c))
  {
  }

  predicate Unhooked(o: Orch, i: nat, t: nat) {
    i < |o.entries| && t in o.entries[i].jobs && BeforeHook(o.entries[i].jobs[t])
  }

  /** This turn is the hook of the operation on the entry, or the launch of its schedule. */
  predicate IsHook(o: Orch, u: Turn, i: nat, t: nat) {
    AtHook(o, i, t) && u.Local? && u.i == i && u.a.Working? && u.a.t == t
  }

  lemma OthersKeepJob(o: Orch, u: Turn, i: nat, t: nat)
    requires CanTake(o, u) && i < |o.entries| && t in o.entries[i].jobs && u != Turn.Return(t) && t != STOP
    requires !(u.Local? && u.i == i)
    ensures i < |Take(o, u).entries| && t in Take(o, u).entries[i].jobs
    ensures Take(o, u).entries[i].jobs[t] == o.entries[i].jobs[t]
  {
    hide Do, Can, CanReserve, CanRelease, StopsAt, StopFailed, Reserve, ReleaseJob, Resume;
    var e := o.entries[i];
    match u
    case Claim(s, ops) => if i in ops { ReserveJobStays(e, t, s, ops[i]); }
    case Return(s) => if s in e.jobs { ReleaseJobStays(e, t, s); }
    case Wind => ReserveJobStays(e, t, STOP, ShutdownOp);
    case Miss(_) => if STOP in e.jobs { ReleaseJobStays(e, t, STOP); }
    case Wait => ResumeJobStays(e, t, true);
    case TimeOut =>
      ResumeJobStays(e, t, false);
      if STOP in e.jobs { ReleaseJobStays(Resume(e, false), t, STOP); }
    case Finish => if STOP in e.jobs { ReleaseJobStays(e, t, STOP); }
    case _ =>
  }

  lemma DoBeforeHook(e: Entry, ctxDone: bool, a: Action, t: nat)
    requires Staged(e) && Can(e, a) && !a.Reserving? && !a.Releasing? && t in e.jobs && BeforeHook(e.jobs[t])
    requires a.Working? && a.t == t ==> !e.jobs[t].stage.Hook? && !e.jobs[t].stage.Schedule?
    ensures var f := Do(e, ctxDone, a); t in f.jobs && BeforeHook(f.jobs[t])
  {
    hide NextJob, BeforeHook, StageFits, KindFits, InstancesByJob, InstancesByInstance, NextInstance, StatusByJob,
         StatusByInstance;
    if a.Working? && a.t == t { NextBeforeHook(e, e.jobs[t], a.c); }
  }

  lemma TurnBeforeHook(o: Orch, u: Turn, i: nat, t: nat)
    requires Inv(o) && CanTake(o, u) && Unhooked(o, i, t) && u != Turn.Return(t) && !IsHook(o, u, i, t)
    ensures Unhooked(Take(o, u), i, t)
  {
    hide Keeps, BeforeHook, Do, Can, Take, CanTake, Reserved, Sound, Staged, Inv, JobsOwned;
    var e := o.entries[i];
    HookedAt(o, i, t);
    if u.Local? && u.i == i {
      LocalTurn(o, u);
      DoBeforeHook(e, ContextDone(o.phase), u.a, t);
    } else {
      OthersKeepJob(o, u, i, t);
    }
  }

  lemma HookedAt(o: Orch, i: nat, t: nat)
    requires Inv(o) && Unhooked(o, i, t)
    ensures Staged(o.entries[i]) && t != STOP
  {
    hide Keeps, Reserved, Sound, Shaped, Inv, Staged;
    assert EntryInv(o, i) by { EntryAt(o, i); }
    KeepsSound(o.phase, FoundAt(o, i), o.entries[i]);
    SoundStaged(o.entries[i]);
  }

  lemma {:induction false} StaysUnhooked(run: seq<Orch>, turns: seq<Turn>, b: nat, n: nat, i: nat, t: nat)
    requires Execution(run, turns) && b <= n < |run| && Unhooked(run[b], i, t)
    requires forall k :: b <= k < n ==> turns[k] != Turn.Return(t) && !IsHook(run[k], turns[k], i, t)
    ensures Unhooked(run[n], i, t)
  {
    hide Inv, CanTake, Take, Unhooked, IsHook;
    if b < n {
      StaysUnhooked(run, turns, b, n - 1, i, t);
      RunInv(run, turns, n - 1);
      TurnBeforeHook(run[n - 1], turns[n - 1], i, t);
    }
  }

  lemma NewIsUnhooked(e: Entry, t: nat, op: Op)
    requires HoldsStarting(op)
    ensures var f := Reserve(e, t, op); t in f.jobs && BeforeHook(f.jobs[t])
  {
    hide AtRest;
  }

  lemma ClaimUnhooked(o: Orch, t: nat, ops: map<nat, Op>, i: nat)
    requires CanTake(o, Claim(t, ops)) && i < |o.entries| && i in ops && HoldsStarting(ops[i])
    ensures Unhooked(Take(o, Claim(t, ops)), i, t)
  {
    hide CanReserve, Reserve, BeforeHook;
    NewIsUnhooked(o.entries[i], t, ops[i]);
  }

  lemma UnhookedFails(o: Orch, i: nat, t: nat)
    requires CanTake(o, Turn.Return(t)) && Unhooked(o, i, t) && t != STOP
    ensures o.entries[i].jobs[t].failed
  {
    assert CanRelease(o.entries[i], t);
  }

  /** A start or a replacement that returned without failure has come to its hook or schedule on the way: no path
      around it reports success. */
  lemma SuccessMeetsHook(run: seq<Orch>, turns: seq<Turn>, w: nat, n: nat, ops: map<nat, Op>, t: nat, i: nat)
    requires Execution(run, turns) && w < n < |turns| && turns[w] == Claim(t, ops) && i < |run[w].entries|
    requires i in ops && HoldsStarting(ops[i])
    requires turns[n] == Turn.Return(t) && forall k :: w < k < n ==> turns[k] != Turn.Return(t)
    requires i < |run[n].entries| && t in run[n].entries[i].jobs && !run[n].entries[i].jobs[t].failed
    ensures exists h :: w < h < n && IsHook(run[h], turns[h], i, t)
  {
    hide Inv, CanTake, Take, IsHook, Unhooked;
    assert CanTake(run[w], turns[w]) && run[w + 1] == Take(run[w], turns[w]);
    ClaimUnhooked(run[w], t, ops, i);
    if forall h :: w < h < n ==> !IsHook(run[h], turns[h], i, t) {
      StaysUnhooked(run, turns, w + 1, n, i, t);
      RunInv(run, turns, n);
      HookedAt(run[n], i, t);
      UnhookedFails(run[n], i, t);
    }
  }

  /** A replacement past the stop of what it replaces: its start has the retries back, and an open stop latch. */
  predicate Anew(e: Entry, j: Job) {
    && j.op.ReplaceOp?
    && (j.stage.Rewind? || IsStart(j.stage) ==> e.retryCount == 0 && e.relaunched == 0)
    && (IsStart(j.stage) ==> !e.stopsCounted) && (j.stage.Rewind? || IsStart(j.stage) || j.stage.Return?)
  }

  lemma NextAnew(e: Entry, j: Job, c: Choice)
    requires j.op.ReplaceOp? && (j.stage.Wipe? || j.stage.Rewind? || IsStart(j.stage))
    ensures var y := NextJob(e, j, c);
      y.op.ReplaceOp? && (if j.stage.Wipe? then y.stage.Rewind? else IsStart(y.stage) || y.stage.Return?)
  {
  }

  lemma OwnAnew(e: Entry, t: nat, c: Choice)
    requires CanWork(e, t, c) && (Anew(e, e.jobs[t]) || (e.jobs[t].op.ReplaceOp? && e.jobs[t].stage.Wipe?))
    ensures var f := Work(e, t, c); Anew(f, f.jobs[t]) && f.raced == e.raced
  {
    hide NextJob, InstancesByJob, StatusByJob, OwnersByJob, WritesStatus, Through;
    NextAnew(e, e.jobs[t], c);
  }

  predicate Renewing(e: Entry, t: nat) {
    t in e.jobs && Anew(e, e.jobs[t])
  }

  lemma RewindIsQuiet(e: Entry, t: nat)
    requires Shaped(e) && t in e.jobs && e.jobs[t].op.ReplaceOp?
    requires e.jobs[t].stage.Rewind? || IsStart(e.jobs[t].stage)
    ensures NoneOrClosed(e.instances) || LastPending(e.instances)
    ensures |e.instances| > 1 && LastPending(e.instances) ==> Settled(e.instances[|e.instances| - 2].at)
  {
    hide OneActs, PointsFit, Tethered, Latest, StopFlags;
    assert Fits(e, e.jobs[t]);
  }

  lemma AdvanceAnew(e: Entry, t: nat, k: nat, c: Choice)
    requires Shaped(e) && CanAdvance(e, k) && Renewing(e, t)
    ensures Renewing(Advance(e, k, false, c), t)
  {
    hide NextInstance, Fits, Tethered, Latest, PointsFit, InstancesByInstance, StatusByInstance, OwnersByInstance,
         Untethers;
    if !e.jobs[t].stage.Return? { RewindIsQuiet(e, t); }
  }

  lemma DoAnew(e: Entry, a: Action, t: nat)
    requires Reserved(e) && AllHold(e) && Shaped(e) && Can(e, a) && !a.Reserving? && Renewing(e, t) && !e.raced
    requires a.Releasing? ==> a.t != t
    ensures Renewing(Do(e, false, a), t) && !Do(e, false, a).raced
  {
    hide Reserved, AllHold, Shaped, Work, Advance, CanWork, CanAdvance, CanRelease, Anew;
    match a
    case Working(s, c) => WorksOnJob(e, s, c); OnlyJob(e, s, t); OwnAnew(e, t, c); WorkKeepsJobs(e, t, c);
    case Advancing(k, c) => AdvancesInstance(e, k); AdvanceAnew(e, t, k, c); AdvanceStays(e, k, false, c);
    case Releasing(s) => ReleaseAnew(e, s, t);
  }

  lemma ReleaseAnew(e: Entry, r: nat, t: nat)
    requires CanRelease(e, r) && r != t && Renewing(e, t)
    ensures Renewing(ReleaseJob(e, r), t)
  {
  }

  predicate AnewAt(o: Orch, i: nat, t: nat) {
    i < |o.entries| && !o.entries[i].raced && Renewing(o.entries[i], t)
  }

  predicate SameRetries(e: Entry, f: Entry, t: nat) {
    && f.retryCount == e.retryCount && f.relaunched == e.relaunched && f.stopsCounted == e.stopsCounted
    && t in e.jobs && t in f.jobs && f.jobs[t] == e.jobs[t]
  }

  lemma ReserveSameRetries(e: Entry, r: nat, op: Op, t: nat)
    requires t in e.jobs && r != t
    ensures SameRetries(e, Reserve(e, r, op), t)
  {
    hide AtRest;
  }

  lemma ReleaseSameRetries(e: Entry, r: nat, t: nat)
    requires t in e.jobs && r in e.jobs && r != t
    ensures SameRetries(e, ReleaseJob(e, r), t)
  {
  }

  lemma OthersAnew(o: Orch, u: Turn, i: nat, t: nat)
    requires CanTake(o, u) && AnewAt(o, i, t) && !ContextDone(o.phase) && !ContextDone(Take(o, u).phase)
    requires !(u.Local? && u.i == i) && u != Turn.Return(t)
    ensures i < |Take(o, u).entries| && Renewing(Take(o, u).entries[i], t)
  {
    hide Do, Can, CanReserve, CanRelease, StopsAt, StopFailed, Reserve, ReleaseJob;
    var e := o.entries[i];
    match u
    case Claim(r, ops) => if i in ops { ReserveSameRetries(e, r, ops[i], t); }
    case Return(r) => if r in e.jobs { ReleaseSameRetries(e, r, t); }
    case _ =>
  }

  lemma TurnAnew(o: Orch, u: Turn, i: nat, t: nat)
    requires Inv(o) && CanTake(o, u) && AnewAt(o, i, t) && !ContextDone(o.phase) && !ContextDone(Take(o, u).phase)
    requires u != Turn.Return(t)
    ensures AnewAt(Take(o, u), i, t)
  {
    hide Keeps, Renewing, Do, Take, CanTake, Reserved, Sound, Shaped, Inv, AllHold;
    if u.Local? && u.i == i {
      StartAt(o, i);
      LocalTurn(o, u);
      DoAnew(o.entries[i], u.a, t);
    } else {
      OthersAnew(o, u, i, t);
      OthersUnraced(o, u, i);
    }
  }

  lemma WipesAnew(o: Orch, c: Choice, i: nat, t: nat)
    requires CanTake(o, Local(i, Working(t, c))) && t in o.entries[i].jobs && !o.entries[i].raced
    requires o.entries[i].jobs[t].op.ReplaceOp? && o.entries[i].jobs[t].stage.Wipe?
    ensures AnewAt(Take(o, Local(i, Working(t, c))), i, t)
  {
    hide CanWork, Anew, Work;
    OwnAnew(o.entries[i], t, c);
    WorkKeepsJobs(o.entries[i], t, c);
  }

  lemma WorkKeepsJobs(e: Entry, t: nat, c: Choice)
    requires t in e.jobs
    ensures t in Work(e, t, c).jobs
  {
  }

  /** ReplaceService starts its service afresh: from the time it has reset the entry at turn b, its start finds no
      retry counted and the stop latch open, until the new service is launched, before any shutdown. */
  lemma {:induction false} ReplacementIsAnew(run: seq<Orch>, turns: seq<Turn>, b: nat, n: nat, c: Choice, t: nat,
      i: nat)
    requires Execution(run, turns) && b < n < |run| && i < |run[b].entries| && t in run[b].entries[i].jobs
    requires turns[b] == Local(i, Working(t, c)) && !run[b].entries[i].raced
    requires run[b].entries[i].jobs[t].op.ReplaceOp? && run[b].entries[i].jobs[t].stage.Wipe?
    requires !ContextDone(run[n].phase) && forall k :: b < k < n ==> turns[k] != Turn.Return(t)
    ensures AnewAt(run[n], i, t)
  {
    hide Inv, CanTake, Take, AnewAt;
    assert CanTake(run[n - 1], turns[n - 1]) && run[n] == Take(run[n - 1], turns[n - 1]);
    if n == b + 1 {
      WipesAnew(run[b], c, i, t);
    } else {
      PhaseOnward(run, turns, n - 1, n);
      ReplacementIsAnew(run, turns, b, n - 1, c, t, i);
      RunInv(run, turns, n - 1);
      TurnAnew(run[n - 1], turns[n - 1], i, t);
    }
  }
}
