/** The orchestrator over its entries: claims that reserve several at once, the wait group, and Stop. */
module Shutdown {
  import opened Services
  import opened Registry
  import opened Lifecycle
  import opened LifecycleFlow
  import opened LifecycleSafety
  import opened LifecycleShares
  import opened LifecycleRemovals
  import opened LifecycleIds
  import opened LifecycleSound
  import opened LifecycleEnds
  import opened LifecycleRetries
  import opened LifecycleVerdicts
  import opened LifecycleLimits
  import opened LifecycleExits
  import opened LifecycleAccounts
  import opened LifecycleStatus

  /** Stop marks itself stopping, cancels the context and stops every entry, waits for the wait group,
      and commits. Down says whether it reported an error. */
  datatype Phase = Up | Ending | Winding | Waited | Down(failed: bool)

  /** found is history: the entries as Stop found them when it cancelled the context. */
  datatype Orch = Orch(entries: seq<Entry>, wg: int, health: bool, started: bool, phase: Phase, found: seq<Entry>)

  /** The operation id of the whole-orchestrator Stop. */
  const STOP: nat := 0

  predicate ContextDone(phase: Phase) {
    phase.Winding? || phase.Waited? || phase.Down?
  }

  function Init(): Orch {
    Orch([], 0, false, false, Up, [])
  }

  datatype Turn =
    | Register(policy: Policy)
    | Boot(health: bool)
    | Claim(t: nat, ops: map<nat, Op>)
    | Return(t: nat)
    | Local(i: nat, a: Action)
    | BeginStop
    | Wind
    | Miss(i: nat)
    | Wait
    | TimeOut
    | Finish

  function Claimed(entries: seq<Entry>, t: nat, ops: map<nat, Op>): (r: seq<Entry>)
    ensures |r| == |entries|
    ensures forall i :: 0 <= i < |r| ==> r[i] == if i in ops then Reserve(entries[i], t, ops[i]) else entries[i]
  {
    seq(|entries|, i requires 0 <= i < |entries| => if i in ops then Reserve(entries[i], t, ops[i]) else entries[i])
  }

  function Returned(entries: seq<Entry>, t: nat): (r: seq<Entry>)
    ensures |r| == |entries|
    ensures forall i :: 0 <= i < |r| ==> r[i] == if t in entries[i].jobs then ReleaseJob(entries[i], t) else entries[i]
  {
    seq(|entries|, i requires 0 <= i < |entries| =>
      if t in entries[i].jobs then ReleaseJob(entries[i], t) else entries[i])
  }

  /** Stop takes an entry over, unless it has been removed. */
  function Overtake(e: Entry): Entry {
    if e.removed then e else Reserve(e, STOP, ShutdownOp)
  }

  function Wound(entries: seq<Entry>): (r: seq<Entry>)
    ensures |r| == |entries| && forall i :: 0 <= i < |r| ==> r[i] == Overtake(entries[i])
  {
    seq(|entries|, i requires 0 <= i < |entries| => Overtake(entries[i]))
  }

  /** Once the wait is over, the terminal status of a completed sequence is committed, if it is verified. */
  function Resume(e: Entry, verified: bool): Entry {
    if STOP in e.jobs then
      var j := e.jobs[STOP];
      e.(jobs := e.jobs[STOP := j.(stage := if verified && j.completed then Read else Stage.Return)])
    else e
  }

  function Resumed(entries: seq<Entry>, verified: bool): (r: seq<Entry>)
    ensures |r| == |entries|
    ensures forall i :: 0 <= i < |r| ==> r[i] == Resume(entries[i], verified)
  {
    seq(|entries|, i requires 0 <= i < |entries| => Resume(entries[i], verified))
  }

  predicate StopsAt(entries: seq<Entry>, stage: Stage) {
    forall i :: 0 <= i < |entries| && STOP in entries[i].jobs ==> entries[i].jobs[STOP].stage == stage
  }

  predicate StopFailed(entries: seq<Entry>) {
    exists i :: 0 <= i < |entries| && STOP in entries[i].jobs && entries[i].jobs[STOP].failed
  }

  predicate CanTake(o: Orch, m: Turn) {
    match m
    case Register(policy) => o.phase.Up? && (policy.factory ==> policy.kind.Persistent?)
    case Boot(_) => o.phase.Up? && !o.started
    case Claim(t, ops) =>
      && o.phase.Up? && t != STOP
      && (forall i :: i in ops ==> i < |o.entries| && CanReserve(o.entries[i], ops[i]) && Holds(ops[i])
                                   && (HoldsStarting(ops[i]) ==> o.started))
      && forall i :: 0 <= i < |o.entries| ==> t !in o.entries[i].jobs
    case Return(t) => t != STOP && forall i :: 0 <= i < |o.entries| && t in o.entries[i].jobs ==>
        CanRelease(o.entries[i], t)
    case Local(i, a) => i < |o.entries| && (a.Working? || a.Advancing?) && Can(o.entries[i], a)
    case BeginStop => o.phase.Up? && o.started
    case Wind => o.phase.Ending?
    case Miss(i) => o.phase.Winding? && i < |o.entries| && STOP in o.entries[i].jobs && CanRelease(o.entries[i], STOP)
    case Wait => o.phase.Winding? && StopsAt(o.entries, Hold) && o.wg == 0
    case TimeOut => o.phase.Winding? && StopsAt(o.entries, Hold)
    case Finish => o.phase.Waited? && StopsAt(o.entries, Stage.Return)
  }

  function Take(o: Orch, m: Turn): Orch
    requires CanTake(o, m)
  {
    match m
    case Register(policy) => o.(entries := o.entries + [Fresh(policy)])
    case Boot(health) => o.(started := true, health := health, wg := o.wg + B(health))
    case Claim(t, ops) => o.(entries := Claimed(o.entries, t, ops))
    case Return(t) => o.(entries := Returned(o.entries, t))
    case Local(i, a) =>
      var f := Do(o.entries[i], ContextDone(o.phase), a);
      o.(entries := o.entries[i := f], wg := o.wg + f.share - o.entries[i].share)
    case BeginStop => o.(phase := Ending)
    case Wind =>
      o.(phase := Winding, health := false, wg := o.wg - B(o.health), entries := Wound(o.entries), found := o.entries)
    case Miss(i) => o.(entries := o.entries[i := ReleaseJob(o.entries[i], STOP)])
    case Wait => o.(phase := Waited, entries := Resumed(o.entries, true))
    case TimeOut => o.(phase := Down(true), entries := Returned(Resumed(o.entries, false), STOP))
    case Finish => o.(phase := Down(StopFailed(o.entries)), entries := Returned(o.entries, STOP))
  }

  ghost predicate Path(run: seq<Orch>, turns: seq<Turn>) {
    && |run| == |turns| + 1
    && forall i :: 0 <= i < |turns| ==> CanTake(run[i], turns[i]) && run[i + 1] == Take(run[i], turns[i])
  }

  ghost predicate Execution(run: seq<Orch>, turns: seq<Turn>) {
    Path(run, turns) && run[0] == Init()
  }

  /** The orchestrator can get from o to p. */
  ghost predicate From(o: Orch, p: Orch) {
    exists run, turns :: Path(run, turns) && run[0] == o && run[|turns|] == p
  }

  ghost predicate Reachable(o: Orch) {
    From(Init(), o)
  }

  function Total(entries: seq<Entry>): int {
    if entries == [] then 0 else Total(entries[..|entries| - 1]) + entries[|entries| - 1].share
  }

  lemma {:induction false} TotalUpdate(entries: seq<Entry>, i: nat, f: Entry)
    requires i < |entries|
    ensures Total(entries[i := f]) == Total(entries) - entries[i].share + f.share
  {
    var last := |entries| - 1;
    if i < last {
      assert entries[i := f][..last] == entries[..last][i := f];
      TotalUpdate(entries[..last], i, f);
    } else {
      assert entries[i := f][..last] == entries[..last];
    }
  }

  lemma {:induction false} TotalSame(a: seq<Entry>, b: seq<Entry>)
    requires |a| == |b| && forall i :: 0 <= i < |a| ==> a[i].share == b[i].share
    ensures Total(a) == Total(b)
  {
    if a != [] { TotalSame(a[..|a| - 1], b[..|b| - 1]); }
  }

  /** What an entry keeps as long as no replacement was late; the last part until the context is cancelled. */
  ghost predicate Kept(ctxDone: bool, e: Entry) {
    && Shaped(e) && Shares(e) && Budgeted(e) && ShowsExit(e) && Accounted(e) && Limits(e) && Leaves(e)
    && Drained(e)
    && (!ctxDone ==> Ends(e) && (!e.policy.factory ==> Honest(e)))
  }

  /** The reservation is exact and the entry sound, whatever was done to it; and only a self-healing service is
      ever raced. */
  ghost predicate EntryOk(ctxDone: bool, e: Entry) {
    && Reserved(e) && Sound(e) && AllReportOnce(e) && Trials(e) && Departs(e) && IdsOk(e) && OwnersHeld(e)
    && (e.raced ==> e.policy.factory && e.policy.kind.Persistent?)
    && (!e.raced ==> Kept(ctxDone, e))
  }

  lemma FreshOk(ctxDone: bool, policy: Policy)
    requires policy.factory ==> policy.kind.Persistent?
    ensures EntryOk(ctxDone, Fresh(policy))
  {
  }

  lemma DoKept(ctxDone: bool, e: Entry, a: Action)
    requires Reserved(e) && Sound(e) && AllReportOnce(e) && Trials(e) && Kept(ctxDone, e) && Can(e, a)
    requires (a.Reserving? && !ctxDone ==> Holds(a.op))
    requires !Do(e, ctxDone, a).raced
    ensures Kept(ctxDone, Do(e, ctxDone, a))
  {
    hide Reserved, Staged, Shaped, Shares, Budgeted, AllReportOnce, Trials, Departs, IdsOk, ShowsExit, Accounted,
         Leaves, Limits, Ends, Drained, Do, Can, OwnersHeld, Honest, AllHold;
    StepShaped(e, ctxDone, a);
    SoundStaged(e);
    StepShares(e, ctxDone, a);
    StepBudgeted(e, ctxDone, a);
    StepTells(e, ctxDone, a);
    StepAccounted(e, ctxDone, a);
    StepLeaves(e, ctxDone, a);
    StepLimits(e, ctxDone, a);
    StepDrained(e, ctxDone, a);
    DoStays(e, ctxDone, a);
    if !ctxDone {
      EndsHold(e);
      if !e.policy.factory { StepHonest(e, a); }
      StepEnds(e, ctxDone, a);
    }
  }

  /** Claimed at rest, an entry that was replaced too late has everything back. */
  lemma Recovers(e: Entry, t: nat, op: Op)
    requires Reserved(e) && Sound(e) && AtRest(e) && CanReserve(e, op) && Holds(op) && e.raced && e.policy.factory
    ensures Kept(false, Reserve(e, t, op)) && !Reserve(e, t, op).raced
  {
    hide CountAt, Reserved;
    var f := Reserve(e, t, op);
    assert f.jobs.Keys == {t};
    NewJobIsNotDone(e, op);
    RestShapes(e);
    RestShares(f);
    NewJobFits(f, op);
  }

  lemma RestShapes(e: Entry)
    requires Pointed(e.policy, e.instances) && forall k :: 0 <= k < |e.instances| ==> e.instances[k].at == Closed
    ensures PointsFit(e.policy, e.instances) && OneActs(e.policy.factory, e.instances) && NoneOrClosed(e.instances)
  {
  }

  lemma RestShares(e: Entry)
    requires e.share == 0 && NoneOrClosed(e.instances)
    requires forall t :: t in e.jobs ==> !e.jobs[t].stage.Enroll? && !e.jobs[t].stage.Fit?
    ensures Shares(e)
  {
  }

  lemma NewJobFits(e: Entry, op: Op)
    requires !e.removed && e.policy.factory && e.policy.kind.Persistent? && NoneOrClosed(e.instances) && Holds(op)
    ensures Fits(e, Job(op, FirstStage(e.policy, op), 0, None, Registered, false, false, false))
  {
  }

  /** Everything an entry keeps survives every step of every actor. */
  lemma DoOk(ctxDone: bool, e: Entry, a: Action)
    requires EntryOk(ctxDone, e) && Can(e, a) && (a.Reserving? && !ctxDone ==> Holds(a.op))
    ensures EntryOk(ctxDone, Do(e, ctxDone, a))
  {
    hide Reserved, Sound, AllReportOnce, Trials, Departs, IdsOk, OwnersHeld, Kept, Do, Can;
    StepReserved(e, ctxDone, a);
    StepSound(e, ctxDone, a);
    StepReports(e, ctxDone, a);
    StepJudged(e, ctxDone, a);
    SoundStaged(e);
    StepDeparts(e, ctxDone, a);
    StepIds(e, ctxDone, a);
    StepOwns(e, ctxDone, a);
    DoStays(e, ctxDone, a);
    if !Do(e, ctxDone, a).raced {
      if e.raced {
        RecoversBy(e, ctxDone, a);
      } else {
        DoKept(ctxDone, e, a);
      }
    } else if !e.raced {
      KeptShaped(ctxDone, e);
      StepRaced(e, ctxDone, a);
    }
  }

  lemma RecoversBy(e: Entry, ctxDone: bool, a: Action)
    requires Reserved(e) && Sound(e) && Can(e, a) && e.raced && !Do(e, ctxDone, a).raced && e.policy.factory
    ensures a.Reserving? && Holds(a.op) && AtRest(e) && Kept(ctxDone, Do(e, ctxDone, a))
  {
    hide Reserved, Sound, Kept, Work, Advance, CanReserve, CanRelease, CanWork, CanAdvance, AtRest;
    match a
    case Reserving(t, op) => Recovers(e, t, op); KeptAnyway(ctxDone, Reserve(e, t, op));
    case Working(t, c) => WorksOnJob(e, t, c); WorkStays(e, t, c);
    case Advancing(k, c) => AdvancesInstance(e, k); AdvanceStays(e, k, ctxDone, c);
    case Releasing(t) =>
  }

  lemma WorksOnJob(e: Entry, t: nat, c: Choice)
    requires CanWork(e, t, c)
    ensures t in e.jobs
  {
  }

  lemma AdvancesInstance(e: Entry, k: nat)
    requires CanAdvance(e, k)
    ensures k < |e.instances|
  {
  }

  lemma KeptAnyway(ctxDone: bool, e: Entry)
    requires Kept(false, e)
    ensures Kept(ctxDone, e)
  {
    hide Shaped, Shares, Budgeted, ShowsExit, Accounted, Leaves, Limits, Drained, Ends, Honest;
  }

  lemma KeptShaped(ctxDone: bool, e: Entry)
    requires Kept(ctxDone, e)
    ensures Shaped(e) && Shares(e)
  {
    hide Shaped, Shares;
  }

  lemma WorkStays(e: Entry, t: nat, c: Choice)
    requires t in e.jobs
    ensures var f := Work(e, t, c); f.policy == e.policy && (e.removed ==> f.removed) && (e.raced ==> f.raced)
  {
    hide NextJob, InstancesByJob, OwnersByJob, StatusByJob, Counts, LatchReset, Through, WritesStatus;
  }

  lemma AdvanceStays(e: Entry, k: nat, ctxDone: bool, c: Choice)
    requires k < |e.instances|
    ensures var f := Advance(e, k, ctxDone, c); f.policy == e.policy && f.removed == e.removed && f.raced == e.raced
  {
    hide NextInstance, InstancesByInstance, OwnersByInstance, StatusByInstance, Steadied, Untethers;
  }

  lemma DoStays(e: Entry, ctxDone: bool, a: Action)
    requires Can(e, a)
    ensures var f := Do(e, ctxDone, a); f.policy == e.policy && (e.removed ==> f.removed)
    ensures !a.Reserving? && e.raced ==> Do(e, ctxDone, a).raced
    ensures !a.Working? && !e.raced ==> !Do(e, ctxDone, a).raced
  {
    hide Work, Advance, CanReserve, AtRest;
    match a
    case Working(t, c) => WorkStays(e, t, c);
    case Advancing(k, c) => AdvanceStays(e, k, ctxDone, c);
    case _ =>
  }

  lemma SoundStaged(e: Entry)
    requires Sound(e)
    ensures Staged(e)
  {
    hide Staged;
  }

  /** Stop takes over an entry, whatever else is on it. */
  lemma WindOk(e: Entry)
    requires EntryOk(true, e) && !e.removed && STOP !in e.jobs
    ensures EntryOk(true, Reserve(e, STOP, ShutdownOp))
  {
    hide EntryOk, Reserve;
    assert Can(e, Reserving(STOP, ShutdownOp));
    assert Do(e, true, Reserving(STOP, ShutdownOp)) == Reserve(e, STOP, ShutdownOp);
    DoOk(true, e, Reserving(STOP, ShutdownOp));
  }

  lemma CancelledOk(e: Entry)
    requires EntryOk(false, e)
    ensures EntryOk(true, e)
  {
    hide Reserved, Sound, Shaped, Shares, Budgeted, AllReportOnce, Trials, Departs, IdsOk, ShowsExit, Accounted,
         Leaves, Limits, OwnersHeld, Drained, Honest, Ends;
  }
}
