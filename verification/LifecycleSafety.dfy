/** What every step keeps: one reservation at a time, and what each operation relies on. */
module LifecycleSafety {
  import opened Registry
  import opened Lifecycle
  import opened LifecycleFlow

  /** At most one operation holds the entry, and the two flags say which kind it is. */
  ghost predicate Reserved(e: Entry) {
    && (forall s, t :: s in e.jobs && t in e.jobs && Holds(e.jobs[s].op) && Holds(e.jobs[t].op) ==> s == t)
    && (e.starting <==> exists t :: t in e.jobs && HoldsStarting(e.jobs[t].op))
    && (e.removing <==> exists t :: t in e.jobs && HoldsRemoving(e.jobs[t].op))
  }

  predicate PersistentStage(stage: Stage) {
    stage.Unlatch? || stage.Enroll? || stage.Fit? || stage.Launch?
  }

  predicate GateStage(stage: Stage) {
    stage.Gate? || stage.Ungate? || stage.Settle? || stage.Bless? || stage.Free?
  }

  predicate OwnStage(stage: Stage) {
    stage.Guard? || stage.Hook? || stage.Own? || stage.Arm? || stage.Run?
  }

  /** A start works on an entry whose instances are gone until it installs its own. */
  ghost predicate StartFits(policy: Policy, removed: bool, instances: seq<Instance>, j: Job) {
    && !removed
    && (PersistentStage(j.stage) ==> policy.kind.Persistent?) && (GateStage(j.stage) ==> policy.kind.RunOnce?)
    && (OwnStage(j.stage) ==> !policy.kind.Scheduled?) && (j.stage.Schedule? ==> policy.kind.Scheduled?)
    && (j.stage.Launch? ==> && j.channel == Some(|instances| - 1) && LastPending(instances)
                            && (|instances| > 1 ==> Settled(instances[|instances| - 2].at)))
    && (!j.stage.Launch? ==> NoneOrClosed(instances))
  }

  predicate Awaits(op: Op) {
    op.TearDownOp? || op.ReplaceOp?
  }

  predicate BeforeWait(stage: Stage) {
    stage.Begin? || stage.Mark? || stage.Sequence? || stage.Await?
  }

  /** Stages that only some operations reach. */
  predicate StageFits(op: Op, stage: Stage) {
    if stage.Validate? || stage.Wipe? || stage.Rewind? then op.ReplaceOp?
    else if stage.Skip? then op.TearDownOp?
    else if stage.Remove? then op.TearDownOp? && op.remove
    else if stage.Cancel? || stage.Watch? || stage.Await? || stage.Drain? then Awaits(op)
    else if stage.Hold? then op.ShutdownOp?
    else if IsStart(stage) then HoldsStarting(op)
    else op.StartOp? ==> stage.Return?
  }

  /** Stages that only some services reach. */
  predicate KindFits(policy: Policy, stage: Stage) {
    && (PersistentStage(stage) ==> policy.kind.Persistent?) && (GateStage(stage) ==> policy.kind.RunOnce?)
    && (OwnStage(stage) ==> !policy.kind.Scheduled?) && (stage.Schedule? ==> policy.kind.Scheduled?)
  }

  /** Every operation stands where it may. */
  ghost predicate Staged(e: Entry) {
    forall t :: t in e.jobs ==> StageFits(e.jobs[t].op, e.jobs[t].stage) && KindFits(e.policy, e.jobs[t].stage)
  }

  /** What a stop that awaits knows of its own progress. */
  predicate StopFlags(removed: bool, j: Job) {
    && (!j.stage.Drain? && !j.stage.Return? ==> !removed) && (j.stage.Drain? && j.op.ReplaceOp? ==> !removed)
    && (j.stage.Remove? || j.stage.Drain? || j.stage.Return? ==>
          (j.op.TearDownOp? && !j.op.target) || j.completed || j.failed)
    && (j.stage.Read? || j.stage.Commit? || j.stage.Account? ==> j.completed)
    && (j.stage.Skip? ==> !j.completed) && (j.stage.Await? ==> j.completed || j.failed)
    && (j.stage.Skip? || j.stage.Validate? || j.stage.Cancel? || j.stage.Watch? ==> !j.late)
  }

  /** A stop that was not late watches the newest instance, which restarts no more, and knows it gone
      when both its sequence and its wait went well. */
  predicate StopSees(factory: bool, cut: bool, instances: seq<Instance>, j: Job) {
    && (j.stage.Watch? || BeforeWait(j.stage) ==> factory && |instances| > 0 ==> cut)
    && (BeforeWait(j.stage) ==> Latest(j.channel, instances) && !Through(instances))
    && (j.stage.Read? || j.stage.Commit? || j.stage.Account? || j.stage.Wipe? || j.stage.Rewind? ==>
         NoneOrClosed(instances))
    && (j.stage.Remove? || j.stage.Drain? || j.stage.Return? ==> j.completed && !j.failed ==> NoneOrClosed(instances))
  }

  /** The job is part of a stop that awaits. */
  predicate Stops(j: Job) {
    Awaits(j.op) && !IsStart(j.stage) && !(j.op.ReplaceOp? && j.stage.Return?)
  }

  ghost predicate JobFits(policy: Policy, removed: bool, cut: bool, instances: seq<Instance>, j: Job) {
    && StageFits(j.op, j.stage) && (j.op.ReplaceOp? ==> !j.late) && (j.late ==> policy.factory)
    && (IsStart(j.stage) ==> StartFits(policy, removed, instances, j))
    && (Stops(j) ==> StopFlags(removed, j) && (!j.late ==> StopSees(policy.factory, cut, instances, j)))
  }

  /** A start that has armed the teardown context of its era. */
  predicate Armed(stage: Stage) {
    stage.Run? || stage.Count? || stage.Unlatch? || stage.Enroll? || stage.Fit? || stage.Launch?
  }

  /** A self-healing service has a teardown context, and a restart that waits watches that one. */
  ghost predicate Tethered(e: Entry) {
    e.policy.factory && !e.removed ==>
      && (|e.instances| > 0 ==> e.teardown.Some?)
      && (|e.instances| > 0 && e.instances[|e.instances| - 1].at.Backoff? ==>
           e.instances[|e.instances| - 1].held == e.teardown)
      && (forall t :: t in e.jobs && Armed(e.jobs[t].stage) ==> e.teardown.Some?)
  }

  /** The teardown context was cancelled. */
  predicate Cut(e: Entry) {
    e.teardown.Some? && e.teardown.value in e.cancelled
  }

  ghost predicate Fits(e: Entry, j: Job) {
    JobFits(e.policy, e.removed, Cut(e), e.instances, j)
  }

  /** The shape of the entry. */
  ghost predicate Shaped(e: Entry) {
    && PointsFit(e.policy, e.instances) && OneActs(e.policy.factory, e.instances)
    && (!e.removed ==> Latest(e.done, e.instances)) && Tethered(e)
    && forall t :: t in e.jobs ==> Fits(e, e.jobs[t])
  }

  /** Same operations, same flags: the reservation stands. */
  lemma ReservationStands(e: Entry, f: Entry)
    requires Reserved(e) && f.starting == e.starting && f.removing == e.removing && f.jobs.Keys == e.jobs.Keys
    requires forall t :: t in e.jobs ==> f.jobs[t].op == e.jobs[t].op
    ensures Reserved(f)
  {
    if e.starting {
      var t :| t in e.jobs && HoldsStarting(e.jobs[t].op);
      assert t in f.jobs;
    }
    if e.removing {
      var t :| t in e.jobs && HoldsRemoving(e.jobs[t].op);
      assert t in f.jobs;
    }
  }

  lemma ReserveReserved(e: Entry, t: nat, op: Op)
    requires Reserved(e) && t !in e.jobs && CanReserve(e, op)
    ensures Reserved(Reserve(e, t, op))
  {
    var f := Reserve(e, t, op);
    assert forall s :: s in e.jobs ==> s in f.jobs && f.jobs[s] == e.jobs[s];
    assert t in f.jobs && f.jobs[t].op == op;
    if e.starting {
      var s :| s in e.jobs && HoldsStarting(e.jobs[s].op);
      assert s in f.jobs;
    }
    if e.removing {
      var s :| s in e.jobs && HoldsRemoving(e.jobs[s].op);
      assert s in f.jobs;
    }
  }

  lemma ReleaseReserved(e: Entry, t: nat)
    requires Reserved(e) && CanRelease(e, t)
    ensures Reserved(ReleaseJob(e, t))
    ensures Holds(e.jobs[t].op) ==> !ReleaseJob(e, t).starting && !ReleaseJob(e, t).removing
  {
    var f := ReleaseJob(e, t);
    assert forall s :: s in f.jobs ==> s in e.jobs && f.jobs[s] == e.jobs[s];
    if f.starting {
      var s :| s in e.jobs && HoldsStarting(e.jobs[s].op);
      assert s in f.jobs;
    }
    if f.removing {
      var s :| s in e.jobs && HoldsRemoving(e.jobs[s].op);
      assert s in f.jobs;
    }
  }

  lemma SameOp(e: Entry, j: Job, c: Choice)
    ensures NextJob(e, j, c).op == j.op
  {
    hide NextStart, NextStop;
    if IsStart(j.stage) { StartGoesOn(e, j, c); } else { StopSameOp(e, j, c); }
  }

  lemma StopSameOp(e: Entry, j: Job, c: Choice)
    ensures NextStop(e, j, c).op == j.op
  {
  }

  lemma WorkReserved(e: Entry, t: nat, c: Choice)
    requires Reserved(e) && CanWork(e, t, c)
    ensures Reserved(Work(e, t, c))
  {
    hide NextJob, Reserved;
    SameOp(e, e.jobs[t], c);
    ReservationStands(e, Work(e, t, c));
  }

  lemma AdvanceReserved(e: Entry, k: nat, ctxDone: bool, c: Choice)
    requires Reserved(e) && CanAdvance(e, k)
    ensures Reserved(Advance(e, k, ctxDone, c))
  {
    hide NextInstance, Reserved;
    ReservationStands(e, Advance(e, k, ctxDone, c));
  }

  /** What the jobs rely on about the instances survives an instance's step. */
  lemma AdvanceKeeps(e: Entry, k: nat, y: Instance)
    requires CanAdvance(e, k) && PointsFit(e.policy, e.instances) && OneActs(e.policy.factory, e.instances)
    requires Follows(e, e.instances[k], y)
    ensures var after := InstancesByInstance(e.instances, k, y, e.instances[k].at);
      && (NoneOrClosed(e.instances) ==> NoneOrClosed(after))
      && (NoneOrClosed(e.instances) || !e.policy.factory || !Through(e.instances) ==> |after| == |e.instances|)
      && (LastPending(e.instances) && (|e.instances| > 1 ==> Settled(e.instances[|e.instances| - 2].at)) ==>
            |after| == |e.instances| && LastPending(after) && (|after| > 1 ==> Settled(after[|after| - 2].at)))
      && (!e.policy.factory ==> !Through(after))
  {
    hide PointFits, InstancesByInstance;
    if e.instances[k].at.Install? {
      InstallKeeps(e, k, y);
    } else if e.instances[k].at.Respawn? {
      RespawnKeeps(e, k, y);
    } else {
      MoveKeeps(e, k, y);
    }
  }

  lemma MoveKeeps(e: Entry, k: nat, y: Instance)
    requires CanAdvance(e, k) && PointsFit(e.policy, e.instances) && OneActs(e.policy.factory, e.instances)
    requires Follows(e, e.instances[k], y) && !e.instances[k].at.Install? && !e.instances[k].at.Respawn?
    ensures var after := InstancesByInstance(e.instances, k, y, e.instances[k].at);
      && |after| == |e.instances| && (NoneOrClosed(e.instances) ==> NoneOrClosed(after))
      && (LastPending(e.instances) && (|e.instances| > 1 ==> Settled(e.instances[|e.instances| - 2].at)) ==>
            LastPending(after) && (|after| > 1 ==> Settled(after[|after| - 2].at)))
      && (!e.policy.factory ==> !Through(after))
  {
  }

  lemma InstallKeeps(e: Entry, k: nat, y: Instance)
    requires CanAdvance(e, k) && PointsFit(e.policy, e.instances) && OneActs(e.policy.factory, e.instances)
    requires Follows(e, e.instances[k], y) && e.instances[k].at.Install?
    ensures e.policy.factory && Through(e.instances) && !NoneOrClosed(e.instances) && !LastPending(e.instances)
  {
  }

  lemma RespawnKeeps(e: Entry, k: nat, y: Instance)
    requires CanAdvance(e, k) && PointsFit(e.policy, e.instances) && OneActs(e.policy.factory, e.instances)
    requires Follows(e, e.instances[k], y) && e.instances[k].at.Respawn?
    ensures |InstancesByInstance(e.instances, k, y, e.instances[k].at)| == |e.instances|
    ensures e.policy.factory && !NoneOrClosed(e.instances) && !Settled(e.instances[|e.instances| - 2].at)
    ensures |e.instances| > 1
  {
  }

  lemma AdvanceCut(e: Entry, k: nat, ctxDone: bool, c: Choice)
    requires CanAdvance(e, k) && PointsFit(e.policy, e.instances)
    ensures var f := Advance(e, k, ctxDone, c);
      f.policy == e.policy && f.removed == e.removed && f.jobs == e.jobs
      && (e.policy.factory ==> f.teardown == e.teardown && f.cancelled == e.cancelled)
  {
    hide NextInstance;
    PointOf(e, k);
  }

  /** Once the context that a waiting restart watches is cancelled, no restart gets through any more. */
  lemma AdvanceThrough(e: Entry, k: nat, ctxDone: bool, c: Choice)
    requires CanAdvance(e, k) && PointsFit(e.policy, e.instances) && OneActs(e.policy.factory, e.instances)
    requires Tethered(e) && e.policy.factory && !e.removed && Cut(e) && !Through(e.instances)
    ensures !Through(Advance(e, k, ctxDone, c).instances)
  {
    hide NextInstance, OneActs, PointsFit, InstancesByInstance, Through, Armed, Follows, ChecksOn;
    var x := e.instances[k];
    PointOf(e, k);
    InstanceFollows(e, x, ctxDone, c);
    NextChecks(e, x, ctxDone, c);
    LastChecks(e, k, NextInstance(e, x, ctxDone, c), ctxDone);
  }

  lemma AdvanceSees(e: Entry, k: nat, ctxDone: bool, c: Choice, j: Job)
    requires CanAdvance(e, k) && PointsFit(e.policy, e.instances) && OneActs(e.policy.factory, e.instances)
    requires Tethered(e)
    requires StopFlags(e.removed, j) && StopSees(e.policy.factory, Cut(e), e.instances, j)
    ensures var f := Advance(e, k, ctxDone, c); StopSees(f.policy.factory, Cut(f), f.instances, j)
  {
    hide NextInstance, Follows, OneActs, PointsFit, InstancesByInstance, Through, Tethered;
    var x := e.instances[k];
    PointOf(e, k);
    InstanceFollows(e, x, ctxDone, c);
    AdvanceKeeps(e, k, NextInstance(e, x, ctxDone, c));
    AdvanceCut(e, k, ctxDone, c);
    if e.policy.factory && BeforeWait(j.stage) { AdvanceThrough(e, k, ctxDone, c); }
  }

  lemma AdvanceJobFits(e: Entry, k: nat, ctxDone: bool, c: Choice, j: Job)
    requires CanAdvance(e, k) && PointsFit(e.policy, e.instances) && OneActs(e.policy.factory, e.instances)
    requires Tethered(e) && Fits(e, j)
    ensures Fits(Advance(e, k, ctxDone, c), j)
  {
    hide NextInstance, Follows, OneActs, PointsFit, InstancesByInstance, StopSees, StopFlags, Tethered, Cut;
    var x := e.instances[k];
    PointOf(e, k);
    InstanceFollows(e, x, ctxDone, c);
    AdvanceKeeps(e, k, NextInstance(e, x, ctxDone, c));
    AdvanceCut(e, k, ctxDone, c);
    if Stops(j) && !j.late { AdvanceSees(e, k, ctxDone, c, j); }
  }

  lemma AdvanceLatest(e: Entry, k: nat, ctxDone: bool, c: Choice)
    requires CanAdvance(e, k) && Latest(e.done, e.instances)
    ensures var f := Advance(e, k, ctxDone, c); Latest(f.done, f.instances)
  {
    hide NextInstance;
  }

  lemma AdvanceTethered(e: Entry, k: nat, ctxDone: bool, c: Choice)
    requires PointsFit(e.policy, e.instances) && OneActs(e.policy.factory, e.instances)
    requires Tethered(e) && CanAdvance(e, k)
    ensures Tethered(Advance(e, k, ctxDone, c))
  {
    hide NextInstance, OneActs, PointsFit, InstancesByInstance, Through, Armed, Follows;
    var x, y := e.instances[k], NextInstance(e, e.instances[k], ctxDone, c);
    PointOf(e, k);
    AdvanceCut(e, k, ctxDone, c);
    InstanceFollows(e, x, ctxDone, c);
    NextChecks(e, x, ctxDone, c);
    LastChecks(e, k, y, ctxDone);
  }

  lemma AdvanceShaped(e: Entry, k: nat, ctxDone: bool, c: Choice)
    requires Shaped(e) && CanAdvance(e, k)
    ensures Shaped(Advance(e, k, ctxDone, c))
  {
    hide NextInstance, PointsFit, OneActs, Fits, Latest, InstancesByInstance, Tethered;
    AdvanceShapes(e, k, ctxDone, c);
    AdvanceCut(e, k, ctxDone, c);
    AdvanceTethered(e, k, ctxDone, c);
    if !e.removed { AdvanceLatest(e, k, ctxDone, c); }
    forall t | t in e.jobs ensures Fits(Advance(e, k, ctxDone, c), e.jobs[t]) {
      AdvanceJobFits(e, k, ctxDone, c, e.jobs[t]);
    }
  }

  /** An entry holds no second job that cares about its instances. */
  lemma OtherJobs(e: Entry, s: nat, t: nat)
    requires Reserved(e) && s in e.jobs && t in e.jobs && s != t && Holds(e.jobs[t].op)
    ensures !Holds(e.jobs[s].op)
  {
  }

  lemma StartShapes(e: Entry, j: Job)
    requires PointsFit(e.policy, e.instances) && OneActs(e.policy.factory, e.instances)
    requires StartFits(e.policy, e.removed, e.instances, j) && (j.stage.Fit? || j.stage.Launch?)
    ensures var after := InstancesByJob(e.instances, j); PointsFit(e.policy, after) && OneActs(e.policy.factory, after)
  {
  }

  lemma WorkShapes(e: Entry, t: nat, c: Choice)
    requires CanWork(e, t, c) && PointsFit(e.policy, e.instances) && OneActs(e.policy.factory, e.instances)
    requires Fits(e, e.jobs[t])
    ensures var f := Work(e, t, c);
            PointsFit(f.policy, f.instances) && OneActs(f.policy.factory, f.instances)
  {
    hide NextJob, StopFlags, StopSees, StartFits, OneActs, PointsFit, InstancesByJob, StageFits;
    if e.jobs[t].stage.Fit? || e.jobs[t].stage.Launch? {
      StartShapes(e, e.jobs[t]);
    } else {
      SameInstances(e.instances, e.jobs[t]);
    }
  }

  lemma WorkLatest(e: Entry, t: nat, c: Choice)
    requires CanWork(e, t, c) && Latest(e.done, e.instances) && !e.removed
    ensures var f := Work(e, t, c); !f.removed ==> Latest(f.done, f.instances)
  {
    hide NextJob;
  }

  lemma StageKeepsFit(e: Entry, j: Job, c: Choice)
    requires StageFits(j.op, j.stage) && !j.stage.Return? && !j.stage.Hold?
    ensures StageFits(j.op, NextJob(e, j, c).stage)
    ensures !IsStart(j.stage) && IsStart(NextJob(e, j, c).stage) ==> j.stage.Rewind?
  {
    if IsStart(j.stage) {
      StartStageKeepsFit(e, j, c);
    } else {
      StopStageKeepsFit(e, j, c);
      StopStartsByRewind(e, j, c);
    }
  }

  lemma StartStageKeepsFit(e: Entry, j: Job, c: Choice)
    requires StageFits(j.op, j.stage) && IsStart(j.stage)
    ensures StageFits(j.op, NextStart(e, j, c).stage) && NextStart(e, j, c).late == j.late
    ensures HoldsStarting(j.op) && (IsStart(NextStart(e, j, c).stage) || NextStart(e, j, c).stage.Return?)
  {
    hide NextStart;
    StartGoesOn(e, j, c);
    StartersStage(j.op, NextStart(e, j, c).stage);
  }

  lemma StartGoesOn(e: Entry, j: Job, c: Choice)
    requires IsStart(j.stage)
    ensures var y := NextStart(e, j, c); (IsStart(y.stage) || y.stage.Return?) && y.late == j.late && y.op == j.op
  {
  }

  lemma StartersStage(op: Op, stage: Stage)
    requires HoldsStarting(op) && (IsStart(stage) || stage.Return?)
    ensures StageFits(op, stage)
  {
  }

  predicate EarlyStop(stage: Stage) {
    stage.Validate? || stage.Skip? || stage.Cancel? || stage.Watch? || stage.Begin? || stage.Mark? || stage.Sequence?
  }

  lemma EarlyStopKeepsFit(e: Entry, j: Job, c: Choice)
    requires StageFits(j.op, j.stage) && EarlyStop(j.stage)
    ensures StageFits(j.op, NextStop(e, j, c).stage)
  {
  }

  lemma LateStopKeepsFit(e: Entry, j: Job, c: Choice)
    requires StageFits(j.op, j.stage) && !EarlyStop(j.stage) && !IsStart(j.stage) && !j.stage.Return? && !j.stage.Hold?
    ensures StageFits(j.op, NextStop(e, j, c).stage)
  {
  }

  lemma StopStageKeepsFit(e: Entry, j: Job, c: Choice)
    requires StageFits(j.op, j.stage) && !IsStart(j.stage) && !j.stage.Return? && !j.stage.Hold?
    ensures StageFits(j.op, NextStop(e, j, c).stage)
  {
    hide NextStop, StageFits;
    if EarlyStop(j.stage) { EarlyStopKeepsFit(e, j, c); } else { LateStopKeepsFit(e, j, c); }
  }

  lemma StopStartsByRewind(e: Entry, j: Job, c: Choice)
    requires !IsStart(j.stage) && !j.stage.Return? && !j.stage.Hold?
    ensures IsStart(NextStop(e, j, c).stage) ==> j.stage.Rewind?
    ensures NextStop(e, j, c).late == if j.stage.Watch? then Through(e.instances) else j.late
  {
  }

  lemma StartKeepsFit(e: Entry, j: Job, c: Choice)
    requires StartFits(e.policy, e.removed, e.instances, j) && IsStart(j.stage) && !j.stage.Fit? && !j.stage.Launch?
    ensures IsStart(NextStart(e, j, c).stage) ==> StartFits(e.policy, e.removed, e.instances, NextStart(e, j, c))
  {
    hide NoneOrClosed, NextStart, PersistentStage, GateStage, OwnStage;
    StartKind(e, j, c);
    StartLaunches(e, j, c);
  }

  lemma StartKind(e: Entry, j: Job, c: Choice)
    requires KindFits(e.policy, j.stage) && IsStart(j.stage)
    ensures KindFits(e.policy, NextStart(e, j, c).stage)
  {
  }

  lemma StartLaunches(e: Entry, j: Job, c: Choice)
    requires IsStart(j.stage)
    ensures var y := NextStart(e, j, c);
      (y.stage.Launch? <==> j.stage.Fit?) && (y.stage.Launch? ==> y.channel == Some(|e.instances|))
  {
  }

  lemma InstallKeepsFit(e: Entry, j: Job, c: Choice)
    requires StartFits(e.policy, e.removed, e.instances, j) && (j.stage.Fit? || j.stage.Launch?)
    ensures IsStart(NextStart(e, j, c).stage) ==>
              StartFits(e.policy, e.removed, InstancesByJob(e.instances, j), NextStart(e, j, c))
  {
  }

  lemma StopKeepsFlags(e: Entry, j: Job, c: Choice)
    requires StageFits(j.op, j.stage) && StopFlags(e.removed, j) && Awaits(j.op)
    requires !IsStart(j.stage) && !j.stage.Return? && !j.stage.Hold?
    ensures !IsStart(NextStop(e, j, c).stage) ==> StopFlags(e.removed || j.stage.Remove?, NextStop(e, j, c))
  {
  }

  /** A stop cancels the teardown context and nothing but the removal drops it. */
  lemma WorkCut(e: Entry, t: nat, c: Choice)
    requires t in e.jobs && !IsStart(e.jobs[t].stage) && !e.jobs[t].stage.Remove?
    ensures var f := Work(e, t, c);
      f.teardown == e.teardown && (Cut(e) ==> Cut(f)) && (e.jobs[t].stage.Cancel? && e.teardown.Some? ==> Cut(f))
  {
    hide NextJob;
  }

  /** What the stop knows goes on holding, unless it chooses its channel too late just now. */
  lemma StopKeepsSight(e: Entry, t: nat, c: Choice, cut: bool)
    requires CanWork(e, t, c) && StageFits(e.jobs[t].op, e.jobs[t].stage) && StopFlags(e.removed, e.jobs[t])
    requires StopSees(e.policy.factory, Cut(e), e.instances, e.jobs[t])
    requires Awaits(e.jobs[t].op) && !IsStart(e.jobs[t].stage) && (!e.removed ==> Latest(e.done, e.instances))
    requires !e.jobs[t].stage.Remove? && Cut(e) ==> cut
    requires e.jobs[t].stage.Cancel? && e.policy.factory && |e.instances| > 0 ==> cut
    ensures var j := NextStop(e, e.jobs[t], c);
      !IsStart(j.stage) && !j.late ==> StopSees(e.policy.factory, cut, e.instances, j)
  {
    hide Cut, Through;
  }

  lemma LateIsChosen(removed: bool, j: Job)
    requires StopFlags(removed, j)
    ensures j.stage.Watch? ==> !j.late
  {
  }

  lemma RestartAfterStop(e: Entry, j: Job, c: Choice)
    requires StopFlags(e.removed, j) && StopSees(e.policy.factory, Cut(e), e.instances, j) && j.stage.Rewind?
    ensures StartFits(e.policy, e.removed, e.instances, NextStop(e, j, c))
  {
  }

  lemma CancelCuts(e: Entry, j: Job)
    requires Tethered(e) && StopFlags(e.removed, j) && j.stage.Cancel?
    ensures e.policy.factory && |e.instances| > 0 ==> e.teardown.Some?
  {
  }

  lemma ThroughHeals(e: Entry)
    requires PointsFit(e.policy, e.instances) && Through(e.instances)
    ensures e.policy.factory
  {
    PointOf(e, |e.instances| - 1);
  }

  lemma WorkingJobFits(e: Entry, t: nat, c: Choice)
    requires Shaped(e) && CanWork(e, t, c) && !Work(e, t, c).raced
    ensures Fits(Work(e, t, c), Work(e, t, c).jobs[t])
  {
    hide NextStart, NextStop, StageFits, StartFits, StopFlags, StopSees, Latest, InstancesByJob, PointsFit, OneActs,
         Tethered, Cut, Through;
    var j := e.jobs[t];
    assert Fits(e, j);
    if Through(e.instances) { ThroughHeals(e); }
    SameOp(e, j, c);
    StageKeepsFit(e, j, c);
    if IsStart(j.stage) {
      StartStageKeepsFit(e, j, c);
      if j.stage.Fit? || j.stage.Launch? {
        InstallKeepsFit(e, j, c);
      } else {
        SameInstances(e.instances, j);
        StartKeepsFit(e, j, c);
      }
    } else {
      SameInstances(e.instances, j);
      StopStartsByRewind(e, j, c);
      if Awaits(j.op) {
        AwaitingStops(j);
        StopKeepsFlags(e, j, c);
        LateIsChosen(e.removed, j);
        if !j.stage.Remove? { WorkCut(e, t, c); }
        if j.stage.Cancel? { CancelCuts(e, j); }
        if !j.late { StopKeepsSight(e, t, c, Cut(Work(e, t, c))); }
        if j.stage.Rewind? { RewindIsReplace(j); RestartAfterStop(e, j, c); }
      } else if j.stage.Rewind? {
        RewindIsReplace(j);
      }
    }
  }

  lemma SameInstances(instances: seq<Instance>, j: Job)
    requires !j.stage.Fit? && !j.stage.Launch?
    ensures InstancesByJob(instances, j) == instances
  {
  }

  lemma AwaitingStops(j: Job)
    requires StageFits(j.op, j.stage) && !IsStart(j.stage) && !j.stage.Return?
    ensures !j.op.StartOp?
  {
  }

  lemma RewindIsReplace(j: Job)
    requires StageFits(j.op, j.stage) && j.stage.Rewind?
    ensures j.op.ReplaceOp?
  {
  }

  /** While an operation holds the entry, the only other job is the whole-orchestrator Stop's, and that
      one never touches the instances. */
  lemma OtherJobFits(e: Entry, t: nat, c: Choice, s: nat)
    requires Reserved(e) && Shaped(e) && CanWork(e, t, c) && s in e.jobs && s != t
    ensures Fits(Work(e, t, c), e.jobs[s])
  {
    hide NextJob, StartFits, StopFlags, StopSees, PointsFit, OneActs, Tethered, StatusByJob;
    assert Fits(e, e.jobs[s]) && Fits(e, e.jobs[t]);
    if Holds(e.jobs[t].op) {
      OtherJobs(e, s, t);
    }
  }

  lemma NextArms(e: Entry, j: Job, c: Choice)
    requires !j.stage.Return? && !j.stage.Hold?
    ensures Armed(NextJob(e, j, c).stage) ==> Armed(j.stage) || j.stage.Arm? || j.stage.Schedule?
  {
    hide NextStart, NextStop, Armed;
    if IsStart(j.stage) { StartArms(e, j, c); } else { StopArmsNone(e, j, c); }
  }

  lemma StartArms(e: Entry, j: Job, c: Choice)
    requires IsStart(j.stage)
    ensures Armed(NextStart(e, j, c).stage) ==> Armed(j.stage) || j.stage.Arm? || j.stage.Schedule?
  {
  }

  lemma StopArmsNone(e: Entry, j: Job, c: Choice)
    requires !IsStart(j.stage) && !j.stage.Return? && !j.stage.Hold?
    ensures !Armed(NextStop(e, j, c).stage)
  {
  }

  lemma WorkTethered(e: Entry, t: nat, c: Choice)
    requires Shaped(e) && CanWork(e, t, c)
    ensures Tethered(Work(e, t, c))
    ensures !IsStart(e.jobs[t].stage) && !e.jobs[t].stage.Remove? && Cut(e) ==>
              Cut(Work(e, t, c)) && Work(e, t, c).instances == e.instances
  {
    hide NextJob, OneActs, StopFlags, StopSees, Latest, Through, StatusByJob, OwnersByJob, Counts, LatchReset,
         WritesStatus, PointFits;
    var j, f := e.jobs[t], Work(e, t, c);
    assert Fits(e, j);
    NextArms(e, j, c);
    assert forall s :: s in e.jobs && s != t ==> f.jobs[s] == e.jobs[s];
  }

  lemma WorkShaped(e: Entry, t: nat, c: Choice)
    requires Reserved(e) && Shaped(e) && CanWork(e, t, c) && !Work(e, t, c).raced
    ensures Shaped(Work(e, t, c))
  {
    hide NextJob, PointsFit, OneActs, Fits, Latest, InstancesByJob, StatusByJob, Tethered, Reserved;
    WorkShapes(e, t, c);
    WorkTethered(e, t, c);
    if !e.removed { WorkLatest(e, t, c); }
    WorkingJobFits(e, t, c);
    forall s | s in e.jobs && s != t ensures Fits(Work(e, t, c), e.jobs[s]) {
      OtherJobFits(e, t, c, s);
    }
  }

  lemma ReserveShaped(e: Entry, t: nat, op: Op)
    requires Shaped(e) && t !in e.jobs && CanReserve(e, op)
    ensures Shaped(Reserve(e, t, op))
  {
    hide PointsFit, OneActs, Through;
    var f := Reserve(e, t, op);
    forall s | s in f.jobs ensures Fits(f, f.jobs[s]) {
      if s != t { assert f.jobs[s] == e.jobs[s] && Fits(e, e.jobs[s]); }
    }
  }

  lemma ReleaseShaped(e: Entry, t: nat)
    requires Shaped(e) && CanRelease(e, t)
    ensures Shaped(ReleaseJob(e, t))
  {
    hide PointsFit, OneActs, JobFits, Latest, Armed;
    var f := ReleaseJob(e, t);
    forall s | s in f.jobs ensures Fits(f, f.jobs[s]) && f.jobs[s] == e.jobs[s] &&
        s in e.jobs { assert Fits(e, e.jobs[s]); }
  }

  /** The reservation survives every step of every run. */
  lemma StepReserved(e: Entry, ctxDone: bool, a: Action)
    requires Reserved(e) && Can(e, a)
    ensures Reserved(Do(e, ctxDone, a))
  {
    hide Reserved, Reserve, ReleaseJob, Work, Advance, CanReserve, CanRelease, CanWork, CanAdvance;
    match a
    case Reserving(t, op) => ReserveReserved(e, t, op);
    case Working(t, c) => WorkReserved(e, t, c);
    case Releasing(t) => ReleaseReserved(e, t);
    case Advancing(k, c) => AdvanceReserved(e, k, ctxDone, c);
  }

  /** The shape survives every step, short of a replacement that chooses its channel too late. */
  lemma StepShaped(e: Entry, ctxDone: bool, a: Action)
    requires Reserved(e) && Shaped(e) && Can(e, a) && !Do(e, ctxDone, a).raced
    ensures Shaped(Do(e, ctxDone, a))
  {
    hide Reserved, Shaped, Reserve, ReleaseJob, Work, Advance, CanReserve, CanRelease, CanWork, CanAdvance;
    match a
    case Reserving(t, op) => ReserveShaped(e, t, op);
    case Working(t, c) => WorkShaped(e, t, c);
    case Releasing(t) => ReleaseShaped(e, t);
    case Advancing(k, c) => AdvanceShaped(e, k, ctxDone, c);
  }

  /** Only a self-healing service can be raced. */
  lemma StepRaced(e: Entry, ctxDone: bool, a: Action)
    requires Shaped(e) && Can(e, a) && !e.raced && Do(e, ctxDone, a).raced
    ensures e.policy.factory && e.policy.kind.Persistent?
  {
    hide NextJob, NextInstance, Through;
    ThroughHeals(e);
  }
}
