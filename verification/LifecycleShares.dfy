/** The wait group: an entry's share of it is one per live era, and no exit takes it off twice. */
module LifecycleShares {
  import opened Lifecycle
  import opened LifecycleFlow
  import opened LifecycleSafety

  predicate LastHolds(instances: seq<Instance>) {
    |instances| > 0 && HoldsShare(instances[|instances| - 1].at)
  }

  /** The latch is open for whoever still has to take the share off. */
  predicate LatchOpen(instances: seq<Instance>, wgDone: bool) {
    LastHolds(instances) && !instances[|instances| - 1].at.Release? ==> !wgDone
  }

  /** A start that has added to the wait group and not installed the instance yet. */
  ghost predicate Enrolled(jobs: map<nat, Job>) {
    exists t :: t in jobs && jobs[t].stage.Fit?
  }

  ghost predicate Shares(e: Entry) {
    && e.share == B(Enrolled(e.jobs)) + B(LastHolds(e.instances))
    && LatchOpen(e.instances, e.wgDone)
    && forall t :: t in e.jobs && (e.jobs[t].stage.Enroll? || e.jobs[t].stage.Fit?) ==> !e.wgDone
  }

  /** The instances of an entry that are not done with the wait group. */
  ghost function LiveEras(e: Entry): (r: set<nat>)
    ensures forall k: nat :: k in r <==> k < |e.instances| && HoldsShare(e.instances[k].at)
  {
    set k: nat | k < |e.instances| && HoldsShare(e.instances[k].at)
  }

  lemma LastActs(e: Entry, k: nat)
    requires OneActs(e.policy.factory, e.instances) && k < |e.instances| && HoldsShare(e.instances[k].at)
    ensures k == |e.instances| - 1
  {
  }

  /** The share is what the entry has in the wait group: its one live era, or a start about to have one. */
  lemma ShareIsLiveEras(e: Entry)
    requires Shaped(e) && Shares(e)
    ensures e.share == |LiveEras(e)| + B(Enrolled(e.jobs))
    ensures |LiveEras(e)| <= 1
  {
    hide Shaped;
    assert OneActs(e.policy.factory, e.instances) by { RevealOneActs(e); }
    forall k | k in LiveEras(e) ensures k == |e.instances| - 1 {
      LastActs(e, k);
    }
    assert LiveEras(e) == if LastHolds(e.instances) then {|e.instances| - 1} else {};
  }

  lemma RevealOneActs(e: Entry)
    requires Shaped(e)
    ensures OneActs(e.policy.factory, e.instances) && PointsFit(e.policy, e.instances)
  {
  }

  lemma AdvanceLast(e: Entry, k: nat, y: Instance)
    requires CanAdvance(e, k) && PointsFit(e.policy, e.instances) && OneActs(e.policy.factory, e.instances)
    requires Follows(e, e.instances[k], y) && LatchOpen(e.instances, e.wgDone)
    ensures var x, after := e.instances[k], InstancesByInstance(e.instances, k, y, e.instances[k].at);
      && B(LastHolds(after)) == B(LastHolds(e.instances)) - B(x.at.Release?)
      && LatchOpen(after, e.wgDone || x.at.Latch?)
      && (NoneOrClosed(e.instances) ==> !x.at.Latch?)
  {
    hide PointFits;
    if e.instances[k].at.Install? {
      InstallLast(e, k, y);
    } else if e.instances[k].at.Respawn? {
      RespawnLast(e, k, y);
    } else {
      MoveLast(e, k, y);
    }
  }

  lemma MoveLast(e: Entry, k: nat, y: Instance)
    requires CanAdvance(e, k) && PointsFit(e.policy, e.instances) && OneActs(e.policy.factory, e.instances)
    requires Follows(e, e.instances[k], y) && LatchOpen(e.instances, e.wgDone)
    requires !e.instances[k].at.Install? && !e.instances[k].at.Respawn?
    ensures var x, after := e.instances[k], e.instances[k := y];
      && B(LastHolds(after)) == B(LastHolds(e.instances)) - B(x.at.Release?)
      && LatchOpen(after, e.wgDone || x.at.Latch?)
      && (NoneOrClosed(e.instances) ==> !x.at.Latch?)
  {
    hide PointFits;
  }

  lemma InstallLast(e: Entry, k: nat, y: Instance)
    requires CanAdvance(e, k) && PointsFit(e.policy, e.instances) && OneActs(e.policy.factory, e.instances)
    requires Follows(e, e.instances[k], y) && LatchOpen(e.instances, e.wgDone) && e.instances[k].at.Install?
    ensures var after := InstancesByInstance(e.instances, k, y, Install);
      B(LastHolds(after)) == B(LastHolds(e.instances)) && LatchOpen(after, e.wgDone)
  {
    hide PointFits;
  }

  lemma RespawnLast(e: Entry, k: nat, y: Instance)
    requires CanAdvance(e, k) && PointsFit(e.policy, e.instances) && OneActs(e.policy.factory, e.instances)
    requires Follows(e, e.instances[k], y) && LatchOpen(e.instances, e.wgDone) && e.instances[k].at.Respawn?
    ensures var after := InstancesByInstance(e.instances, k, y, Respawn);
      B(LastHolds(after)) == B(LastHolds(e.instances)) && LatchOpen(after, e.wgDone)
  {
    hide PointFits;
  }

  lemma AdvanceShares(e: Entry, k: nat, ctxDone: bool, c: Choice)
    requires Shaped(e) && Shares(e) && CanAdvance(e, k)
    ensures Shares(Advance(e, k, ctxDone, c))
  {
    hide NextInstance, OneActs, InstancesByInstance, LatchOpen, LastHolds, StopFlags, StopSees;
    assert PointFits(e.policy.factory, e.instances[k].at);
    InstanceFollows(e, e.instances[k], ctxDone, c);
    AdvanceLast(e, k, NextInstance(e, e.instances[k], ctxDone, c));
    forall t | t in e.jobs && (e.jobs[t].stage.Enroll? || e.jobs[t].stage.Fit?) ensures NoneOrClosed(e.instances) {
      assert Fits(e, e.jobs[t]);
    }
  }

  /** What the instances look like to the wait group after a step of an operation. */
  lemma WorkLast(e: Entry, j: Job)
    requires PointsFit(e.policy, e.instances) && LatchOpen(e.instances, e.wgDone) && StageFits(j.op, j.stage)
    requires IsStart(j.stage) ==> StartFits(e.policy, e.removed, e.instances, j)
    requires j.stage.Fit? ==> !e.wgDone
    ensures var after := InstancesByJob(e.instances, j);
      && B(LastHolds(after)) == B(LastHolds(e.instances)) + B(j.stage.Fit?)
      && LatchOpen(after, (e.wgDone && !j.stage.Unlatch? && !j.stage.Remove?) || (j.stage.Settle? && !j.failed))
  {
  }

  lemma StageAfter(e: Entry, j: Job, c: Choice)
    requires !j.stage.Return? && !j.stage.Hold?
    ensures (NextJob(e, j, c).stage.Fit? <==> j.stage.Enroll?) && (NextJob(e, j, c).stage.Enroll? <==> j.stage.Unlatch?)
  {
    hide NextStart, NextStop;
    if IsStart(j.stage) { StartStageAfter(e, j, c); } else { StopStageAfter(e, j, c); }
  }

  lemma StartStageAfter(e: Entry, j: Job, c: Choice)
    requires IsStart(j.stage)
    ensures (NextStart(e, j, c).stage.Fit? <==> j.stage.Enroll?)
    ensures (NextStart(e, j, c).stage.Enroll? <==> j.stage.Unlatch?)
  {
  }

  lemma StopStageAfter(e: Entry, j: Job, c: Choice)
    requires !IsStart(j.stage) && !j.stage.Return? && !j.stage.Hold?
    ensures !NextStop(e, j, c).stage.Fit? && !NextStop(e, j, c).stage.Enroll?
  {
  }

  /** Only the working job can be about to touch the wait group. */
  lemma OnlyEnroller(e: Entry, t: nat, s: nat)
    requires Reserved(e) && Staged(e) && s in e.jobs && t in e.jobs && s != t && IsStart(e.jobs[t].stage)
    ensures !IsStart(e.jobs[s].stage)
  {
    hide KindFits;
  }

  lemma WorkEnrolled(e: Entry, t: nat, c: Choice)
    requires Reserved(e) && Staged(e) && CanWork(e, t, c)
    ensures B(Enrolled(Work(e, t, c).jobs)) ==
            B(Enrolled(e.jobs)) + B(e.jobs[t].stage.Enroll?) - B(e.jobs[t].stage.Fit?)
  {
    hide Reserved, Staged, NextJob;
    var f, j := Work(e, t, c), e.jobs[t];
    StageAfter(e, j, c);
    forall s | s in e.jobs && s != t ensures f.jobs[s] == e.jobs[s] && (IsStart(j.stage) ==> !e.jobs[s].stage.Fit?) {
      if IsStart(j.stage) { OnlyEnroller(e, t, s); }
    }
    assert f.jobs[t].stage.Fit? <==> j.stage.Enroll?;
    if Enrolled(e.jobs) && !j.stage.Fit? {
      var s :| s in e.jobs && e.jobs[s].stage.Fit?;
      assert s in f.jobs && f.jobs[s].stage.Fit?;
    }
  }

  lemma WorkShares(e: Entry, t: nat, c: Choice)
    requires Reserved(e) && Shaped(e) && Staged(e) && Shares(e) && CanWork(e, t, c)
    ensures Shares(Work(e, t, c))
  {
    hide NextJob, OneActs, InstancesByJob, LatchOpen, LastHolds, StopFlags, StopSees, StartFits, Reserved, Enrolled,
         Staged;
    var f, j := Work(e, t, c), e.jobs[t];
    assert Fits(e, j);
    WorkLast(e, j);
    WorkEnrolled(e, t, c);
    StageAfter(e, j, c);
    forall s | s in f.jobs && (f.jobs[s].stage.Enroll? || f.jobs[s].stage.Fit?) ensures !f.wgDone {
      if s != t && IsStart(j.stage) { OnlyEnroller(e, t, s); }
    }
  }

  lemma ReserveShares(e: Entry, t: nat, op: Op)
    requires Shares(e) && t !in e.jobs
    ensures Shares(Reserve(e, t, op))
  {
    hide LatchOpen, LastHolds;
    var f := Reserve(e, t, op);
    if Enrolled(e.jobs) {
      var s :| s in e.jobs && e.jobs[s].stage.Fit?;
      assert s in f.jobs;
    }
  }

  lemma ReleaseShares(e: Entry, t: nat)
    requires Shares(e) && CanRelease(e, t)
    ensures Shares(ReleaseJob(e, t))
  {
    hide LatchOpen, LastHolds;
    var f := ReleaseJob(e, t);
    if Enrolled(e.jobs) {
      var s :| s in e.jobs && e.jobs[s].stage.Fit?;
      assert s in f.jobs;
    }
  }

  /** Every step keeps the share exact. */
  lemma StepShares(e: Entry, ctxDone: bool, a: Action)
    requires Reserved(e) && Shaped(e) && Staged(e) && Shares(e) && Can(e, a)
    ensures Shares(Do(e, ctxDone, a))
  {
    hide Reserved, Shaped, Staged, Shares, Reserve, ReleaseJob, Work, Advance, CanReserve, CanRelease, CanWork,
         CanAdvance;
    match a
    case Reserving(t, op) => ReserveShares(e, t, op);
    case Working(t, c) => WorkShares(e, t, c);
    case Releasing(t) => ReleaseShares(e, t);
    case Advancing(k, c) => AdvanceShares(e, k, ctxDone, c);
  }
}
