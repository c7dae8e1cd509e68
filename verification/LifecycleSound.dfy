/** What holds of an entry whatever was done to it, late replacements included: no instance is launched twice,
    every launch is accounted for, and what it has added to the wait group covers all it has alive. */
module LifecycleSound {
  import opened Services
  import opened Registry
  import opened Lifecycle
  import opened LifecycleFlow
  import opened LifecycleSafety
  import opened LifecycleShares

  /** How many instances stand at a point of this kind. */
  function CountAt(instances: seq<Instance>, p: Point -> bool): nat {
    if instances == [] then 0 else CountAt(instances[..|instances| - 1], p) + B(p(instances[|instances| - 1].at))
  }

  lemma {:induction false} CountUpdate(instances: seq<Instance>, k: nat, y: Instance, p: Point -> bool)
    requires k < |instances|
    ensures CountAt(instances[k := y], p) == CountAt(instances, p) - B(p(instances[k].at)) + B(p(y.at))
  {
    var front, last := instances[..|instances| - 1], |instances| - 1;
    if k < last {
      assert instances[k := y][..last] == front[k := y];
      CountUpdate(front, k, y, p);
    } else {
      assert instances[k := y][..last] == front;
    }
  }

  lemma CountAppend(instances: seq<Instance>, x: Instance, p: Point -> bool)
    ensures CountAt(instances + [x], p) == CountAt(instances, p) + B(p(x.at))
  {
    assert (instances + [x])[..|instances|] == instances;
  }

  lemma {:induction false} CountNone(instances: seq<Instance>, p: Point -> bool)
    ensures CountAt(instances, p) == 0 <==> forall k :: 0 <= k < |instances| ==> !p(instances[k].at)
  {
    if instances != [] { CountNone(instances[..|instances| - 1], p); }
  }

  predicate PendingAt(instances: seq<Instance>, channel: Option<nat>) {
    channel.Some? && channel.value < |instances| && instances[channel.value].at.Pending?
  }

  /** Whoever is about to launch an instance has one of its own that waits for it. */
  ghost predicate Linked(jobs: map<nat, Job>, instances: seq<Instance>) {
    && (forall t :: t in jobs && jobs[t].stage.Launch? ==> PendingAt(instances, jobs[t].channel))
    && (forall k :: 0 <= k < |instances| && HandsOver(instances[k].at) ==>
         PendingAt(instances, Some(instances[k].heir)))
    && (forall k, l :: 0 <= k < l < |instances| && HandsOver(instances[k].at) && HandsOver(instances[l].at) ==>
          instances[k].heir != instances[l].heir)
    && (forall t, k :: t in jobs && jobs[t].stage.Launch? && 0 <= k < |instances| && HandsOver(instances[k].at) ==>
          jobs[t].channel != Some(instances[k].heir))
  }

  /** Each point belongs to the kind of the service. */
  ghost predicate Pointed(policy: Policy, instances: seq<Instance>) {
    && (policy.factory ==> policy.kind.Persistent?) && (|instances| > 0 ==> policy.kind.Persistent?)
    && forall k :: 0 <= k < |instances| ==> PointFits(policy.factory, instances[k].at)
  }

  predicate Tallies(at: Point) {
    at.Tally?
  }

  /** How many goroutines have launched an heir and not yet counted the restart. */
  function Untallied(instances: seq<Instance>): nat {
    CountAt(instances, Tallies)
  }

  /** Every launch is counted as a start or a restart, or a goroutine is about to count it. */
  predicate Tallied(e: Entry) {
    e.launched == e.starts + e.restarts + Untallied(e.instances)
  }

  /** What the entry has in the wait group covers its live eras, and the start about to have one. */
  ghost predicate Covered(e: Entry) {
    e.share >= CountAt(e.instances, HoldsShare) + B(Enrolled(e.jobs))
  }

  predicate Arming(stage: Stage) {
    stage.Own? || stage.Arm? || stage.Run?
  }

  /** The exit channel is the newest one, a self-healing service has a teardown context, and a status that is
      about to change has somebody about to change it. */
  ghost predicate Moored(e: Entry) {
    && (!e.removed ==> Latest(e.done, e.instances))
    && (e.policy.factory && !e.removed ==>
          && (|e.instances| > 0 ==> e.teardown.Some?)
          && forall t :: t in e.jobs && Armed(e.jobs[t].stage) ==> e.teardown.Some?)
    && (e.status.Succeeded? ==> e.policy.kind.RunOnce?)
    && (e.status.Starting? ==> exists t :: t in e.jobs && Arming(e.jobs[t].stage))
  }

  ghost predicate Sound(e: Entry) {
    && Staged(e) && Pointed(e.policy, e.instances) && Linked(e.jobs, e.instances) && Tallied(e) && Covered(e)
    && Moored(e)
  }

  lemma MoveLinks(jobs: map<nat, Job>, e: Entry, k: nat, y: Instance)
    requires CanAdvance(e, k) && Linked(jobs, e.instances) && Follows(e, e.instances[k], y)
    ensures Linked(jobs, InstancesByInstance(e.instances, k, y, e.instances[k].at))
    ensures e.instances[k].at.Respawn? ==> y.heir < |e.instances| && y.heir != k && e.instances[y.heir].at.Pending?
  {
    hide PointFits;
    if e.instances[k].at.Install? {
      InstallLinks(jobs, e, k, y);
    } else if e.instances[k].at.Respawn? {
      RespawnLinks(jobs, e, k, y);
    } else {
      PlainLinks(jobs, e, k, y);
    }
  }

  lemma PlainLinks(jobs: map<nat, Job>, e: Entry, k: nat, y: Instance)
    requires CanAdvance(e, k) && Linked(jobs, e.instances) && Follows(e, e.instances[k], y)
    requires !e.instances[k].at.Install? && !e.instances[k].at.Respawn?
    ensures Linked(jobs, e.instances[k := y])
  {
    hide PointFits;
  }

  lemma InstallLinks(jobs: map<nat, Job>, e: Entry, k: nat, y: Instance)
    requires CanAdvance(e, k) && Linked(jobs, e.instances) && Follows(e, e.instances[k], y)
    requires e.instances[k].at.Install?
    ensures Linked(jobs, e.instances[k := y] + [NewInstance(y.heirOwner)])
  {
    hide PointFits;
  }

  lemma RespawnLinks(jobs: map<nat, Job>, e: Entry, k: nat, y: Instance)
    requires CanAdvance(e, k) && Linked(jobs, e.instances) && Follows(e, e.instances[k], y)
    requires e.instances[k].at.Respawn?
    ensures Linked(jobs, Spawn(e.instances[k := y], Some(y.heir)))
    ensures y.heir < |e.instances| && y.heir != k && e.instances[y.heir].at.Pending?
  {
    hide PointFits;
  }

  /** What one step of a goroutine does to a count. */
  lemma MoveCount(e: Entry, k: nat, y: Instance, p: Point -> bool)
    requires CanAdvance(e, k)
    requires e.instances[k].at.Respawn? ==> y.heir < |e.instances| && y.heir != k && e.instances[y.heir].at.Pending?
    ensures var x := e.instances[k]; var after := InstancesByInstance(e.instances, k, y, x.at);
      CountAt(after, p) == CountAt(e.instances, p) - B(p(x.at)) + B(p(y.at))
        + (if x.at.Install? then B(p(Pending)) else if x.at.Respawn? then B(p(Live)) - B(p(Pending)) else 0)
  {
    var x, moved := e.instances[k], e.instances[k := y];
    CountUpdate(e.instances, k, y, p);
    if x.at.Install? {
      CountAppend(moved, NewInstance(y.heirOwner), p);
    } else if x.at.Respawn? {
      CountUpdate(moved, y.heir, moved[y.heir].(at := Live), p);
    }
  }

  /** What one step of an operation does to a count. */
  lemma WorkCount(e: Entry, j: Job, p: Point -> bool)
    requires j.stage.Launch? ==> PendingAt(e.instances, j.channel)
    ensures CountAt(InstancesByJob(e.instances, j), p) == CountAt(e.instances, p)
              + (if j.stage.Fit? then B(p(Pending)) else if j.stage.Launch? then B(p(Live)) - B(p(Pending)) else 0)
  {
    if j.stage.Fit? {
      CountAppend(e.instances, NewInstance(j.owner), p);
    } else if j.stage.Launch? {
      CountUpdate(e.instances, j.channel.value, e.instances[j.channel.value].(at := Live), p);
    }
  }

  lemma MovePoints(e: Entry, k: nat, y: Instance)
    requires CanAdvance(e, k) && Pointed(e.policy, e.instances) && Follows(e, e.instances[k], y)
    ensures Pointed(e.policy, InstancesByInstance(e.instances, k, y, e.instances[k].at))
  {
  }

  lemma AdvanceCovered(e: Entry, k: nat, y: Instance)
    requires CanAdvance(e, k) && Linked(e.jobs, e.instances) && Covered(e) && Follows(e, e.instances[k], y)
    ensures CountAt(InstancesByInstance(e.instances, k, y, e.instances[k].at), HoldsShare) + B(Enrolled(e.jobs)) <=
            e.share - B(e.instances[k].at.Release?)
  {
    hide PointFits, InstancesByInstance, Enrolled, Linked;
    MoveLinks(e.jobs, e, k, y);
    MoveCount(e, k, y, HoldsShare);
  }

  lemma AdvanceTallied(e: Entry, k: nat, y: Instance)
    requires CanAdvance(e, k) && Linked(e.jobs, e.instances) && Tallied(e) && Follows(e, e.instances[k], y)
    ensures e.launched + B(e.instances[k].at.Respawn?) ==
            e.starts + e.restarts + B(e.instances[k].at.Tally?)
              + Untallied(InstancesByInstance(e.instances, k, y, e.instances[k].at))
  {
    hide PointFits, InstancesByInstance, Linked;
    MoveLinks(e.jobs, e, k, y);
    MoveCount(e, k, y, Tallies);
  }

  lemma AdvanceMoored(e: Entry, k: nat, ctxDone: bool, c: Choice)
    requires Pointed(e.policy, e.instances) && Moored(e) && CanAdvance(e, k)
    ensures Moored(Advance(e, k, ctxDone, c))
  {
    hide NextInstance, Armed;
    assert PointFits(e.policy.factory, e.instances[k].at);
  }

  lemma AdvanceSound(e: Entry, k: nat, ctxDone: bool, c: Choice)
    requires Sound(e) && CanAdvance(e, k)
    ensures Sound(Advance(e, k, ctxDone, c))
  {
    hide NextInstance, InstancesByInstance, StatusByInstance, Linked, Follows, StageFits, PointFits, CountAt,
         Enrolled, Moored;
    var y := NextInstance(e, e.instances[k], ctxDone, c);
    InstanceFollows(e, e.instances[k], ctxDone, c);
    MoveLinks(e.jobs, e, k, y);
    MovePoints(e, k, y);
    AdvanceCovered(e, k, y);
    AdvanceTallied(e, k, y);
    AdvanceMoored(e, k, ctxDone, c);
  }

  /** Only the working job can be about to launch an instance. */
  lemma WorkLinks(e: Entry, t: nat, c: Choice)
    requires Reserved(e) && Staged(e) && Linked(e.jobs, e.instances) && CanWork(e, t, c)
    ensures Linked(Work(e, t, c).jobs, Work(e, t, c).instances)
  {
    hide NextJob, Reserved, Staged;
    var f, j := Work(e, t, c), e.jobs[t];
    NextLaunches(e, j, c);
    forall s | s in e.jobs && s != t ensures f.jobs[s] == e.jobs[s] && (IsStart(j.stage) ==> !e.jobs[s].stage.Launch?) {
      if IsStart(j.stage) { OnlyEnroller(e, t, s); }
    }
  }

  lemma NextLaunches(e: Entry, j: Job, c: Choice)
    requires !j.stage.Return? && !j.stage.Hold?
    ensures var y := NextJob(e, j, c);
      (y.stage.Launch? <==> j.stage.Fit?) && (y.stage.Launch? ==> y.channel == Some(|e.instances|))
  {
    hide NextStart, NextStop;
    if IsStart(j.stage) { StartLaunches(e, j, c); } else { StopLaunchesNone(e, j, c); }
  }

  lemma StopLaunchesNone(e: Entry, j: Job, c: Choice)
    requires !IsStart(j.stage) && !j.stage.Return? && !j.stage.Hold?
    ensures !NextStop(e, j, c).stage.Launch?
  {
  }

  lemma WorkPoints(e: Entry, j: Job)
    requires Pointed(e.policy, e.instances) && (j.stage.Fit? ==> e.policy.kind.Persistent?)
    ensures Pointed(e.policy, InstancesByJob(e.instances, j))
  {
  }

  lemma WorkCovered(e: Entry, t: nat, c: Choice)
    requires Reserved(e) && Staged(e) && Linked(e.jobs, e.instances) && Covered(e) && CanWork(e, t, c)
    ensures Covered(Work(e, t, c))
  {
    hide NextJob, Reserved, Staged, InstancesByJob, Enrolled;
    WorkEnrolled(e, t, c);
    WorkCount(e, e.jobs[t], HoldsShare);
  }

  lemma WorkTallied(e: Entry, t: nat, c: Choice)
    requires Linked(e.jobs, e.instances) && Tallied(e) && t in e.jobs
    ensures Tallied(Work(e, t, c))
  {
    hide NextJob, InstancesByJob;
    WorkCount(e, e.jobs[t], Tallies);
  }

  lemma StageOf(e: Entry, t: nat)
    requires Staged(e) && t in e.jobs
    ensures StageFits(e.jobs[t].op, e.jobs[t].stage) && KindFits(e.policy, e.jobs[t].stage)
  {
    hide StageFits, KindFits;
  }

  lemma NextKind(e: Entry, j: Job, c: Choice)
    requires KindFits(e.policy, j.stage) && !j.stage.Return? && !j.stage.Hold?
    ensures KindFits(e.policy, NextJob(e, j, c).stage)
  {
    hide NextStart, NextStop, KindFits;
    if IsStart(j.stage) { StartKind(e, j, c); } else { StopKind(e, j, c); }
  }

  lemma StopKind(e: Entry, j: Job, c: Choice)
    requires !IsStart(j.stage) && !j.stage.Return? && !j.stage.Hold?
    ensures KindFits(e.policy, NextStop(e, j, c).stage)
  {
    hide NextStop;
    StopStartsByRewind(e, j, c);
    if j.stage.Rewind? { RewindsToStart(e, j, c); }
  }

  lemma RewindsToStart(e: Entry, j: Job, c: Choice)
    requires j.stage.Rewind?
    ensures NextStop(e, j, c).stage == FirstStart(e.policy)
  {
  }

  lemma WorkStaged(e: Entry, t: nat, c: Choice)
    requires Staged(e) && CanWork(e, t, c)
    ensures Staged(Work(e, t, c))
  {
    hide NextJob, StageFits, KindFits;
    var j := e.jobs[t];
    SameOp(e, j, c);
    StageKeepsFit(e, j, c);
    NextKind(e, j, c);
  }

  /** What an operation's step does to the status. */
  lemma NextRises(e: Entry, j: Job, c: Choice)
    requires KindFits(e.policy, j.stage) && !j.stage.Return? && !j.stage.Hold?
    ensures StatusByJob(e.status, j, c).Succeeded? ==> e.status.Succeeded? || e.policy.kind.RunOnce?
    ensures StatusByJob(e.status, j, c).Starting? ==>
              Arming(NextJob(e, j, c).stage) || (e.status.Starting? && !Arming(j.stage))
  {
    hide NextStop;
  }

  lemma WorkMoored(e: Entry, t: nat, c: Choice)
    requires Staged(e) && Pointed(e.policy, e.instances) && Moored(e) && CanWork(e, t, c)
    ensures Moored(Work(e, t, c))
  {
    hide NextJob, StatusByJob, Arming, StageFits, Latest, PointFits;
    var f, j := Work(e, t, c), e.jobs[t];
    StageOf(e, t);
    NextRises(e, j, c);
    NextArms(e, j, c);
    if !e.removed { WorkLatest(e, t, c); }
    assert forall s :: s in e.jobs && s != t ==> f.jobs[s] == e.jobs[s];
    if f.status.Starting? && !Arming(f.jobs[t].stage) {
      var s :| s in e.jobs && Arming(e.jobs[s].stage);
      assert s in f.jobs && f.jobs[s] == e.jobs[s];
    }
  }

  lemma WorkSound(e: Entry, t: nat, c: Choice)
    requires Reserved(e) && Sound(e) && CanWork(e, t, c)
    ensures Sound(Work(e, t, c))
  {
    hide NextJob, InstancesByJob, StatusByJob, Linked, Staged, Covered, Tallied, Moored, Reserved, StageFits,
         KindFits, Pointed;
    StageOf(e, t);
    WorkStaged(e, t, c);
    WorkLinks(e, t, c);
    FitPersists(e, t);
    WorkPoints(e, e.jobs[t]);
    WorkTallied(e, t, c);
    WorkCovered(e, t, c);
    WorkMoored(e, t, c);
  }

  lemma FitPersists(e: Entry, t: nat)
    requires t in e.jobs && KindFits(e.policy, e.jobs[t].stage)
    ensures e.jobs[t].stage.Fit? ==> e.policy.kind.Persistent?
  {
  }

  lemma ReserveStaged(e: Entry, t: nat, op: Op)
    requires Staged(e) && t !in e.jobs
    ensures Staged(Reserve(e, t, op))
  {
    var f := Reserve(e, t, op);
    assert forall s :: s in e.jobs ==> s in f.jobs && f.jobs[s] == e.jobs[s];
  }

  lemma ReserveLinks(e: Entry, t: nat, op: Op)
    requires Linked(e.jobs, e.instances) && t !in e.jobs
    ensures Linked(Reserve(e, t, op).jobs, e.instances) && (Enrolled(Reserve(e, t, op).jobs) <==> Enrolled(e.jobs))
  {
    var f := Reserve(e, t, op);
    assert forall s :: s in e.jobs ==> s in f.jobs && f.jobs[s] == e.jobs[s];
    assert !f.jobs[t].stage.Launch? && !f.jobs[t].stage.Fit?;
  }

  lemma ReserveMoored(e: Entry, t: nat, op: Op)
    requires Moored(e) && t !in e.jobs
    ensures Moored(Reserve(e, t, op))
  {
    hide Latest;
    var f := Reserve(e, t, op);
    assert forall s :: s in e.jobs ==> s in f.jobs && f.jobs[s] == e.jobs[s];
    assert !Armed(f.jobs[t].stage);
  }

  lemma ReserveSound(e: Entry, t: nat, op: Op)
    requires Sound(e) && t !in e.jobs && CanReserve(e, op)
    ensures Sound(Reserve(e, t, op))
  {
    hide CountAt, CanReserve, Pointed, Staged, Linked, Enrolled, Moored;
    ReserveStaged(e, t, op);
    ReserveMoored(e, t, op);
    ReserveLinks(e, t, op);
  }

  lemma ReleaseMoored(e: Entry, t: nat)
    requires Moored(e) && CanRelease(e, t)
    ensures Moored(ReleaseJob(e, t))
  {
    hide Latest, Armed;
    var f := ReleaseJob(e, t);
    assert forall s :: s in e.jobs && s != t ==> s in f.jobs && f.jobs[s] == e.jobs[s];
    assert !Arming(e.jobs[t].stage);
  }

  lemma ReleaseSound(e: Entry, t: nat)
    requires Sound(e) && CanRelease(e, t)
    ensures Sound(ReleaseJob(e, t))
  {
    hide CountAt, Pointed, StageFits, KindFits, Moored;
    var f := ReleaseJob(e, t);
    assert forall s :: s in f.jobs ==> s in e.jobs && f.jobs[s] == e.jobs[s];
    assert Enrolled(f.jobs) ==> Enrolled(e.jobs);
    ReleaseMoored(e, t);
  }

  /** Every step of every actor keeps an entry sound. */
  lemma StepSound(e: Entry, ctxDone: bool, a: Action)
    requires Reserved(e) && Sound(e) && Can(e, a)
    ensures Sound(Do(e, ctxDone, a))
  {
    hide Reserved, Sound, Reserve, ReleaseJob, Work, Advance, CanReserve, CanRelease, CanWork, CanAdvance;
    match a
    case Reserving(t, op) => ReserveSound(e, t, op);
    case Working(t, c) => WorkSound(e, t, c);
    case Releasing(t) => ReleaseSound(e, t);
    case Advancing(k, c) => AdvanceSound(e, k, ctxDone, c);
  }

  /** An entry with nothing in the wait group has settled. */
  lemma ShareZeroSettles(e: Entry)
    requires Sound(e) && e.share == 0
    ensures forall k :: 0 <= k < |e.instances| ==> Settled(e.instances[k].at)
    ensures !Enrolled(e.jobs)
  {
    hide PointFits, Staged, Tallied, Moored;
    CountNone(e.instances, HoldsShare);
    forall k | 0 <= k < |e.instances| ensures !HandsOver(e.instances[k].at) {
      if HandsOver(e.instances[k].at) { PendingHolds(e.instances, e.instances[k].heir); }
    }
  }

  lemma PendingHolds(instances: seq<Instance>, h: nat)
    requires PendingAt(instances, Some(h))
    ensures exists k :: 0 <= k < |instances| && HoldsShare(instances[k].at)
  {
    assert HoldsShare(instances[h].at);
  }

  /** The live eras are what the count counts. */
  lemma {:induction false} ErasAreCounted(instances: seq<Instance>, eras: set<nat>)
    requires forall k: nat :: k in eras <==> k < |instances| && HoldsShare(instances[k].at)
    ensures |eras| == CountAt(instances, HoldsShare)
  {
    if instances == [] {
      assert eras == {};
    } else {
      var last := |instances| - 1;
      ErasAreCounted(instances[..last], eras - {last});
      assert eras == (if last in eras then (eras - {last}) + {last} else eras - {last});
    }
  }
}
