/** What the exit of a service without a factory leaves behind: a counted stop, and no teardown context. */
module LifecycleExits {
  import opened Services
  import opened Registry
  import opened Lifecycle
  import opened LifecycleFlow
  import opened LifecycleSafety
  import opened LifecycleRetries
  import opened LifecycleLimits

  /** No start has renewed the stop latch. */
  ghost predicate NoneRenews(jobs: map<nat, Job>) {
    forall t :: t in jobs ==> !IsStart(jobs[t].stage) || jobs[t].stage.Guard?
  }

  /** The newest instance has left its service Stopped. */
  predicate LeftStopped(instances: seq<Instance>) {
    LastVerdict(instances) == Some(Stopped) && !instances[|instances| - 1].at.CountStop?
  }

  /** Its stop is counted, until an operation writes the status or a start renews the latch. */
  ghost predicate ExitCounted(e: Entry) {
    !e.policy.factory && LeftStopped(e.instances) && !e.overruled && !e.removed && NoneRenews(e.jobs) ==> e.stopsCounted
  }

  /** Such a verdict comes from the point that counts. */
  lemma CountsOnLeaving(e: Entry, x: Instance, ctxDone: bool, c: Choice)
    requires !e.policy.factory && PointFits(false, x.at) && !x.at.Pending? && ReportsOnce(x)
    ensures var y := NextInstance(e, x, ctxDone, c);
      Verdict(y) == Some(Stopped) && !y.at.CountStop? ==>
        x.at.CountStop? || (Verdict(x) == Some(Stopped) && !x.at.CountStop?)
  {
    hide NextDecision, NextRestart;
  }

  lemma AdvanceCounted(e: Entry, k: nat, ctxDone: bool, c: Choice)
    requires Shaped(e) && AllReportOnce(e) && ExitCounted(e) && CanAdvance(e, k)
    ensures ExitCounted(Advance(e, k, ctxDone, c))
  {
    hide NextInstance, Fits, Latest, Tethered, StatusByInstance, Verdict, ReportsOnce, NoneRenews, OwnersByInstance,
         Untethers, Steadied, PointFits;
    PointOf(e, k);
    if !e.policy.factory {
      PlainPoints(e, k);
      CountsOnLeaving(e, e.instances[k], ctxDone, c);
    }
  }

  lemma PlainPoints(e: Entry, k: nat)
    requires k < |e.instances| && PointFits(e.policy.factory, e.instances[k].at) && !e.policy.factory
    ensures var at := e.instances[k].at; PointFits(false, at) && !at.Install? && !at.Respawn? && !at.Rearm?
  {
  }

  /** Whoever renews the latch is starting the entry, replaced it before, or has removed it. */
  lemma WorkCounted(e: Entry, t: nat, c: Choice)
    requires Shaped(e) && Limits(e) && ExitCounted(e) && CanWork(e, t, c)
    ensures ExitCounted(Work(e, t, c))
  {
    hide NextJob, OneActs, PointsFit, Tethered, Latest, StopFlags, StopSees, Verdict, OwnersByJob, Counts, AtLimit,
         LatchReset, InstancesByJob, LeftStopped, StatusByJob, WritesStatus, Superseded, StartFits;
    var f, j := Work(e, t, c), e.jobs[t];
    assert Fits(e, j);
    SameLeft(e, j);
    if LeftStopped(f.instances) && NoneRenews(f.jobs) {
      assert t in f.jobs && f.jobs[t] == NextJob(e, j, c);
      OnlyPersistent(e);
      EndsOverruled(e, j, c);
      if j.stage.Rewind? { RewindsOverruled(e, t); }
      assert forall s :: s in e.jobs && s != t ==> f.jobs[s] == e.jobs[s];
    }
  }

  lemma OnlyPersistent(e: Entry)
    requires PointsFit(e.policy, e.instances)
    ensures |e.instances| > 0 ==> e.policy.kind.Persistent?
  {
  }

  lemma SameLeft(e: Entry, j: Job)
    requires j.stage.Launch? ==> StartFits(e.policy, e.removed, e.instances, j)
    ensures LeftStopped(InstancesByJob(e.instances, j)) ==>
              LeftStopped(e.instances) && |e.instances| > 0 && !j.stage.Launch? && !j.stage.Fit?
  {
  }

  /** A start that renewed the latch does not end without writing the status, or launching an instance. */
  lemma EndsOverruled(e: Entry, j: Job, c: Choice)
    requires StageFits(j.op, j.stage) && (IsStart(j.stage) ==> StartFits(e.policy, e.removed, e.instances, j))
    requires PointsFit(e.policy, e.instances) && |e.instances| > 0 && !j.stage.Launch? && !j.stage.Fit?
    requires !IsStart(NextJob(e, j, c).stage) || NextJob(e, j, c).stage.Guard?
    ensures IsStart(j.stage) && !j.stage.Guard? ==> WritesStatus(j, c)
    ensures LatchReset(e, j) ==> j.stage.Rewind? || j.stage.Remove?
  {
    hide NextStop;
  }

  lemma RewindsOverruled(e: Entry, t: nat)
    requires Superseded(e) && t in e.jobs && e.jobs[t].stage.Rewind? && StageFits(e.jobs[t].op, e.jobs[t].stage)
    requires !e.policy.kind.RunOnce?
    ensures e.overruled
  {
  }

  lemma ReserveCounted(e: Entry, t: nat, op: Op)
    requires ExitCounted(e) && t !in e.jobs
    ensures ExitCounted(Reserve(e, t, op))
  {
    hide AtRest, Verdict;
    assert forall s :: s in e.jobs ==> Reserve(e, t, op).jobs[s] == e.jobs[s];
  }

  lemma ReleaseCounted(e: Entry, t: nat)
    requires ExitCounted(e) && CanRelease(e, t)
    ensures ExitCounted(ReleaseJob(e, t))
  {
    hide Verdict;
    assert forall s :: s in e.jobs && s != t ==> s in ReleaseJob(e, t).jobs;
  }

  /** Every step leaves such an exit counted. */
  lemma StepCountsExit(e: Entry, ctxDone: bool, a: Action)
    requires Shaped(e) && AllReportOnce(e) && Limits(e) && ExitCounted(e) && Can(e, a)
    ensures ExitCounted(Do(e, ctxDone, a))
  {
    hide Shaped, AllReportOnce, Limits, ExitCounted, Reserve, Work, Advance, CanReserve, CanRelease, CanWork,
         CanAdvance;
    match a
    case Reserving(t, op) => ReserveCounted(e, t, op);
    case Working(t, c) => WorkCounted(e, t, c);
    case Releasing(t) => ReleaseCounted(e, t);
    case Advancing(k, c) => AdvanceCounted(e, k, ctxDone, c);
  }

  /** The goroutine has given its teardown context back. */
  predicate Dropped(at: Point) {
    at.Disown? || at.Closing? || at.Closed?
  }

  /** No start has armed a context that its instance does not hold yet. */
  ghost predicate NoneArmed(jobs: map<nat, Job>) {
    forall t :: t in jobs ==> !Armed(jobs[t].stage)
  }

  /** The context of the entry is the one that the newest instance remembers, until that gives it back. */
  predicate Holding(teardown: Option<nat>, instances: seq<Instance>) {
    if |instances| == 0 then teardown.None?
    else
      var x := instances[|instances| - 1];
      && (Dropped(x.at) ==> teardown.None?)
      && (!Dropped(x.at) && !x.at.Pending? && !x.at.Live? && !x.at.Sample? ==> x.held == teardown)
  }

  /** No gate runs. */
  ghost predicate NoneGates(jobs: map<nat, Job>) {
    forall t :: t in jobs ==> !jobs[t].stage.Gate? && !jobs[t].stage.Ungate?
  }

  ghost predicate Untied(e: Entry) {
    && (!e.policy.factory && e.policy.kind.Persistent? && !e.removed && NoneArmed(e.jobs) ==>
          Holding(e.teardown, e.instances))
    && (e.policy.kind.RunOnce? && NoneArmed(e.jobs) && NoneGates(e.jobs) ==> e.teardown.None?)
  }

  lemma NextHolds(e: Entry, x: Instance, ctxDone: bool, c: Choice)
    requires !e.policy.factory && PointFits(false, x.at) && !x.at.Pending? && !x.at.Closed?
    ensures var y := NextInstance(e, x, ctxDone, c);
      && !y.at.Pending? && !y.at.Live?
      && (Dropped(y.at) ==> Dropped(x.at) || x.at.Untether?)
      && (!Dropped(y.at) && !y.at.Sample? ==> y.held == if x.at.Sample? then e.teardown else x.held)
      && (!Dropped(y.at) && !y.at.Sample? ==> !x.at.Live? && !Dropped(x.at) && !x.at.Untether?)
  {
    hide NextDecision, NextRestart, NextExit, NextTail, Dropped;
    if IsExit(x.at) { ExitHolds(e, x, ctxDone, c); } else { TailHolds(e, x); }
  }

  lemma ExitHolds(e: Entry, x: Instance, ctxDone: bool, c: Choice)
    requires !e.policy.factory && IsExit(x.at)
    ensures var y := NextExit(e, x, ctxDone, c);
      && !y.at.Pending? && !y.at.Live? && !Dropped(y.at) && !Dropped(x.at)
      && (!y.at.Sample? ==> !x.at.Live? && y.held == if x.at.Sample? then e.teardown else x.held)
  {
    hide TeardownActive;
  }

  lemma TailHolds(e: Entry, x: Instance)
    requires !e.policy.factory && PointFits(false, x.at) && !IsExit(x.at) && !x.at.Pending? && !x.at.Closed?
    ensures var y := NextTail(e, x);
      && !IsDecision(x.at) && !IsRestart(x.at) && y.held == x.held
      && !y.at.Pending? && !y.at.Live? && !y.at.Sample?
      && (if Dropped(y.at) then Dropped(x.at) || x.at.Untether? else !Dropped(x.at) && !x.at.Untether?)
  {
  }

  lemma AdvanceUntied(e: Entry, k: nat, ctxDone: bool, c: Choice)
    requires Shaped(e) && Untied(e) && CanAdvance(e, k)
    ensures Untied(Advance(e, k, ctxDone, c))
  {
    hide NextInstance, Fits, Latest, Tethered, StatusByInstance, NoneArmed, NoneGates, OwnersByInstance, Steadied,
         PointFits;
    PointOf(e, k);
    if !e.policy.factory {
      PlainPoints(e, k);
      NextHolds(e, e.instances[k], ctxDone, c);
    }
  }

  /** A start that has armed its context installs an instance before it ends. */
  lemma ArmedGoesOn(e: Entry, j: Job, c: Choice)
    requires e.policy.kind.Persistent? && StageFits(j.op, j.stage)
    requires IsStart(j.stage) ==> StartFits(e.policy, e.removed, e.instances, j)
    ensures Armed(j.stage) && !j.stage.Launch? ==> Armed(NextJob(e, j, c).stage)
    ensures j.stage.Arm? ==> Armed(NextJob(e, j, c).stage)
    ensures j.stage.Launch? ==> var after := InstancesByJob(e.instances, j);
      |after| > 0 && after[|after| - 1].at.Live?
    ensures !j.stage.Launch? && !j.stage.Fit? ==> InstancesByJob(e.instances, j) == e.instances
    ensures !j.stage.Ungate?
  {
    hide NextStop;
  }

  lemma WorkUntied(e: Entry, t: nat, c: Choice)
    requires Shaped(e) && Untied(e) && CanWork(e, t, c)
    ensures Untied(Work(e, t, c))
  {
    hide NextJob, OneActs, PointsFit, Tethered, Latest, StopFlags, StopSees, OwnersByJob, Counts, LatchReset,
         StatusByJob, WritesStatus, InstancesByJob, StartFits, StageFits;
    var f, j := Work(e, t, c), e.jobs[t];
    assert Fits(e, j);
    assert t in f.jobs && f.jobs[t] == NextJob(e, j, c);
    assert forall s :: s in e.jobs && s != t ==> f.jobs[s] == e.jobs[s];
    if e.policy.kind.Persistent? && NoneArmed(f.jobs) { ArmedGoesOn(e, j, c); }
    if e.policy.kind.RunOnce? && NoneArmed(f.jobs) && NoneGates(f.jobs) { GateGoesOn(e, j, c); }
  }

  /** A gate gives its context back when its Start has returned. */
  lemma GateGoesOn(e: Entry, j: Job, c: Choice)
    requires e.policy.kind.RunOnce? && StageFits(j.op, j.stage)
    requires IsStart(j.stage) ==> StartFits(e.policy, e.removed, e.instances, j)
    requires var y := NextJob(e, j, c); !Armed(y.stage) && !y.stage.Gate? && !y.stage.Ungate?
    ensures !j.stage.Arm? && (Armed(j.stage) || j.stage.Gate? || j.stage.Ungate? ==> j.stage.Ungate?)
  {
    hide NextStop;
  }

  lemma FewerJobs(jobs: map<nat, Job>, more: map<nat, Job>)
    requires forall t :: t in jobs ==> t in more && more[t] == jobs[t]
    ensures NoneArmed(more) ==> NoneArmed(jobs)
    ensures NoneGates(more) ==> NoneGates(jobs)
  {
    hide Armed;
  }

  lemma OtherJobsLeft(jobs: map<nat, Job>, t: nat)
    requires t in jobs && (jobs[t].stage.Return? || jobs[t].stage.Begin?)
    ensures NoneArmed(jobs - {t}) ==> NoneArmed(jobs)
    ensures NoneGates(jobs - {t}) ==> NoneGates(jobs)
  {
    assert forall s :: s in jobs && s != t ==> s in jobs - {t};
  }

  lemma ReserveUntied(e: Entry, t: nat, op: Op)
    requires Untied(e) && t !in e.jobs
    ensures Untied(Reserve(e, t, op))
  {
    hide AtRest, Holding, NoneArmed, NoneGates;
    FewerJobs(e.jobs, Reserve(e, t, op).jobs);
  }

  lemma ReleaseUntied(e: Entry, t: nat)
    requires Untied(e) && CanRelease(e, t)
    ensures Untied(ReleaseJob(e, t))
  {
    hide Holding, NoneArmed, NoneGates;
    OtherJobsLeft(e.jobs, t);
  }

  /** Every step keeps the teardown context with the newest instance, which gives it back when it exits. */
  lemma StepUnties(e: Entry, ctxDone: bool, a: Action)
    requires Shaped(e) && Untied(e) && Can(e, a)
    ensures Untied(Do(e, ctxDone, a))
  {
    hide Shaped, Untied, Reserve, Work, Advance, CanReserve, CanRelease, CanWork, CanAdvance;
    match a
    case Reserving(t, op) => ReserveUntied(e, t, op);
    case Working(t, c) => WorkUntied(e, t, c);
    case Releasing(t) => ReleaseUntied(e, t);
    case Advancing(k, c) => AdvanceUntied(e, k, ctxDone, c);
  }

  /** What the exit of a service without a factory leaves behind. */
  ghost predicate Leaves(e: Entry) {
    ExitCounted(e) && Untied(e)
  }

  lemma StepLeaves(e: Entry, ctxDone: bool, a: Action)
    requires Shaped(e) && AllReportOnce(e) && Limits(e) && Leaves(e) && Can(e, a)
    ensures Leaves(Do(e, ctxDone, a))
  {
    hide Shaped, AllReportOnce, Limits, ExitCounted, Untied, Do, Can;
    StepCountsExit(e, ctxDone, a);
    StepUnties(e, ctxDone, a);
  }
}
